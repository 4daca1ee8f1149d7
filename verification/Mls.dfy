/**
 MLS ranges as the kernel prints them with Android's level names: one level, or
 two different levels joined by a dash. A level is a sensitivity and a finite
 set of categories, printed as singles, adjacent pairs and longer runs. Printing
 is one-to-one, and the parser accepts exactly what is printed.
 */
module Mls {
  import opened Common

  const NUMBER_LIMIT: nat := 1_000_000_000    // nine digits

  predicate Digit(c: char) { '0' <= c <= '9' }

  function DigitValue(c: char): (d: nat)
    requires Digit(c)
    ensures d < 10
  {
    c as int - '0' as int
  }

  function DigitOf(d: nat): (c: char)
    requires d < 10
    ensures Digit(c) && DigitValue(c) == d
  {
    ('0' as int + d) as char
  }

  // ---- numbers

  predicate Digits(s: string) { forall i :: 0 <= i < |s| ==> Digit(s[i]) }

  function Decimal(n: nat): (s: string)
    ensures s != [] && Digits(s)
  {
    if n < 10 then [DigitOf(n)] else Decimal(n / 10) + [DigitOf(n % 10)]
  }

  function FromDecimal(s: string): nat
    requires Digits(s)
  {
    if s == [] then 0 else 10 * FromDecimal(s[..|s| - 1]) + DigitValue(s[|s| - 1])
  }

  predicate Plain(s: string) { s != [] && Digits(s) && (|s| > 1 ==> s[0] != '0') }

  lemma {:induction false} DecimalReads(n: nat)
    ensures Plain(Decimal(n)) && FromDecimal(Decimal(n)) == n && (Decimal(n)[0] == '0' <==> n == 0)
  {
    if n >= 10 {
      DecimalReads(n / 10);
      assert Decimal(n)[..|Decimal(n)| - 1] == Decimal(n / 10);
    }
  }

  lemma {:induction false} DecimalWrites(s: string)
    requires Plain(s)
    ensures Decimal(FromDecimal(s)) == s && (s[0] != '0' ==> FromDecimal(s) > 0)
    decreases |s|
  {
    if |s| > 1 { DecimalWrites(s[..|s| - 1]); }
  }

  function Power10(k: nat): nat { if k == 0 then 1 else 10 * Power10(k - 1) }

  lemma {:induction false} DecimalLength(n: nat, k: nat)
    requires k > 0
    ensures |Decimal(n)| <= k <==> n < Power10(k)
    decreases k
  {
    if k == 1 {
      assert Power10(1) == 10;
    } else if n >= 10 {
      DecimalLength(n / 10, k - 1);
    } else {
      TenAtLeast(k);
    }
  }

  lemma {:induction false} TenAtLeast(k: nat)
    requires k > 0
    ensures Power10(k) >= 10
  {
    if k > 1 { TenAtLeast(k - 1); }
  }

  lemma NineDigits(n: nat)
    ensures |Decimal(n)| <= 9 <==> n < NUMBER_LIMIT
  {
    DecimalLength(n, 9);
    assert Power10(3) == 1000;
    assert Power10(6) == 1000 * Power10(3);
    assert Power10(9) == 1000 * Power10(6);
  }

  /** How many digits a text begins with. */
  function Leading(t: string): (k: nat)
    ensures k <= |t| && Digits(t[..k]) && (k < |t| ==> !Digit(t[k]))
  {
    if t == [] || !Digit(t[0]) then 0 else 1 + Leading(t[1..])
  }

  /** A number of at most nine digits without redundant zeros, and the rest. */
  function ParseNumber(t: string): (r: Option<(nat, string)>)
    ensures r.Some? ==> |r.value.1| < |t|
  {
    var k := Leading(t);
    if k == 0 || k > 9 || (k > 1 && t[0] == '0') then None else Some((FromDecimal(t[..k]), t[k..]))
  }

  lemma NumberIs(t: string)
    ensures var k := Leading(t);
            ParseNumber(t) ==
            if k == 0 || k > 9 || (k > 1 && t[0] == '0') then None else Some((FromDecimal(t[..k]), t[k..]))
  {
  }

  predicate Stops(rest: string) { rest == [] || !Digit(rest[0]) }

  lemma LeadingIs(s: string, rest: string)
    requires Digits(s) && Stops(rest)
    ensures Leading(s + rest) == |s|
  {
    var t := s + rest;
    assert forall i :: 0 <= i < |s| ==> Digit(t[i]);
    assert rest != [] ==> t[|s|] == rest[0];
    assert forall i :: 0 <= i < Leading(t) ==> Digit(t[..Leading(t)][i]) && t[..Leading(t)][i] == t[i];
  }

  lemma NumberReads(n: nat, rest: string)
    requires n < NUMBER_LIMIT && Stops(rest)
    ensures ParseNumber(Decimal(n) + rest) == Some((n, rest))
  {
    DecimalReads(n);
    NineDigits(n);
    var s := Decimal(n);
    LeadingIs(s, rest);
    assert (s + rest)[..|s|] == s && (s + rest)[|s|..] == rest;
  }

  lemma NumberWrites(t: string)
    requires ParseNumber(t).Some?
    ensures var (n, rest) := ParseNumber(t).value; n < NUMBER_LIMIT && t == Decimal(n) + rest && Stops(rest)
  {
    var s := t[..Leading(t)];
    DecimalWrites(s);
    NineDigits(FromDecimal(s));
    assert t == s + t[Leading(t)..];
  }

  // ---- categories

  /** One category, or a run of three or more. */
  datatype Item = One(low: nat) | Run(low: nat, high: nat)

  function End(i: Item): nat { if i.One? then i.low else i.high }

  /** What the parser remembers of the item before: where it ended, and whether
      it was a single that the next may be adjacent to. */
  datatype Before = Nothing | Before(end: nat, pairable: bool)

  predicate WellFormed(i: Item) {
    i.low < NUMBER_LIMIT && (i.Run? ==> i.low + 2 <= i.high < NUMBER_LIMIT)
  }

  predicate Adjacent(b: Before, i: Item) { b.Before? && i.low == b.end + 1 }

  /** Ascending, and adjacent only as the second single of a pair. */
  predicate Fits(b: Before, i: Item) {
    b.Before? ==> i.low > b.end && (Adjacent(b, i) ==> i.One? && b.pairable)
  }

  function After(b: Before, i: Item): Before { Before(End(i), i.One? && !Adjacent(b, i)) }

  predicate Canonical(b: Before, items: seq<Item>)
    decreases |items|
  {
    items == [] || (WellFormed(items[0]) && Fits(b, items[0]) && Canonical(After(b, items[0]), items[1..]))
  }

  function PrintItem(i: Item): string {
    match i
    case One(a) => "c" + Decimal(a)
    case Run(a, b) => "c" + Decimal(a) + ".c" + Decimal(b)
  }

  function PrintItems(items: seq<Item>): string
    requires items != []
  {
    if |items| == 1 then PrintItem(items[0]) else PrintItem(items[0]) + "," + PrintItems(items[1..])
  }

  predicate Begins(t: string, c: char) { t != [] && t[0] == c }

  /** The letter c and a number. */
  function ParseCategory(t: string): (r: Option<(nat, string)>)
    ensures r.Some? ==> |r.value.1| < |t|
  {
    if !Begins(t, 'c') then None else ParseNumber(t[1..])
  }

  function ParseItem(t: string): (r: Option<(Item, string)>)
    ensures r.Some? ==> |r.value.1| < |t|
  {
    match ParseCategory(t)
    case None => None
    case Some((low, rest)) =>
      if !Begins(rest, '.') then Some((One(low), rest))
      else
        match ParseCategory(rest[1..])
        case None => None
        case Some((high, last)) => if high < low + 2 then None else Some((Run(low, high), last))
  }

  lemma CategoryReads(n: nat, rest: string)
    requires n < NUMBER_LIMIT && Stops(rest)
    ensures ParseCategory("c" + Decimal(n) + rest) == Some((n, rest))
  {
    var t := "c" + Decimal(n) + rest;
    assert t[1..] == Decimal(n) + rest;
    NumberReads(n, rest);
  }

  lemma CategoryWrites(t: string)
    requires ParseCategory(t).Some?
    ensures var (n, rest) := ParseCategory(t).value; n < NUMBER_LIMIT && t == "c" + Decimal(n) + rest && Stops(rest)
  {
    NumberWrites(t[1..]);
    var (n, rest) := ParseCategory(t).value;
    assert t == ['c'] + t[1..];
    assert "c" + Decimal(n) + rest == ['c'] + (Decimal(n) + rest);
  }

  lemma ItemReads(i: Item, rest: string)
    requires WellFormed(i) && Stops(rest) && !Begins(rest, '.')
    ensures ParseItem(PrintItem(i) + rest) == Some((i, rest))
  {
    if i.One? {
      CategoryReads(i.low, rest);
    } else {
      var last := "c" + Decimal(i.high) + rest;
      assert PrintItem(i) + rest == "c" + Decimal(i.low) + ("." + last);
      CategoryReads(i.low, "." + last);
      assert ("." + last)[1..] == last;
      CategoryReads(i.high, rest);
    }
  }

  lemma RunText(x: string, y: string, last: string)
    ensures "c" + x + ("." + ("c" + y + last)) == "c" + x + ".c" + y + last
  {
  }

  lemma ItemWrites(t: string)
    requires ParseItem(t).Some?
    ensures var (i, rest) := ParseItem(t).value; WellFormed(i) && t == PrintItem(i) + rest
  {
    CategoryWrites(t);
    var (low, rest) := ParseCategory(t).value;
    if Begins(rest, '.') {
      CategoryWrites(rest[1..]);
      var (high, last) := ParseCategory(rest[1..]).value;
      assert rest == "." + rest[1..];
      RunText(Decimal(low), Decimal(high), last);
    }
  }

  /** Items up to the first that no comma follows, each fitting the one before. */
  function ParseItems(b: Before, t: string): Option<(seq<Item>, string)>
    decreases |t|
  {
    match ParseItem(t)
    case None => None
    case Some((i, rest)) =>
      if !Fits(b, i) then None
      else if !Begins(rest, ',') then Some(([i], rest))
      else
        match ParseItems(After(b, i), rest[1..])
        case None => None
        case Some((items, last)) => Some(([i] + items, last))
  }

  lemma Associates(a: string, b: string, c: string, d: string)
    ensures a + b + c + d == a + (b + (c + d))
  {
  }

  lemma {:induction false} ItemsRead(b: Before, items: seq<Item>, rest: string)
    requires items != [] && Canonical(b, items) && Stops(rest) && !Begins(rest, '.') && !Begins(rest, ',')
    ensures ParseItems(b, PrintItems(items) + rest) == Some((items, rest))
    decreases |items|
  {
    var i := items[0];
    if |items| == 1 {
      ItemReads(i, rest);
      assert items == [i];
    } else {
      ItemsRead(After(b, i), items[1..], rest);
      FirstRead(b, items, rest);
    }
  }

  lemma FirstRead(b: Before, items: seq<Item>, rest: string)
    requires |items| > 1 && WellFormed(items[0]) && Fits(b, items[0])
    requires ParseItems(After(b, items[0]), PrintItems(items[1..]) + rest) == Some((items[1..], rest))
    ensures ParseItems(b, PrintItems(items) + rest) == Some((items, rest))
  {
    hide ParseItem, PrintItem;
    var i := items[0];
    var later := PrintItems(items[1..]) + rest;
    var t := PrintItems(items) + rest;
    Associates(PrintItem(i), ",", PrintItems(items[1..]), rest);
    assert t == PrintItem(i) + ("," + later);
    ItemReads(i, "," + later);
    assert ("," + later)[1..] == later;
    assert items == [i] + items[1..];
  }

  lemma FirstWritten(i: Item, items: seq<Item>, t: string, rest: string, last: string)
    requires items != [] && t == PrintItem(i) + rest && rest == "," + (PrintItems(items) + last)
    ensures t == PrintItems([i] + items) + last
  {
    assert ([i] + items)[1..] == items;
    Associates(PrintItem(i), ",", PrintItems(items), last);
  }

  lemma OneWritten(b: Before, i: Item)
    requires WellFormed(i) && Fits(b, i)
    ensures Canonical(b, [i]) && PrintItems([i]) == PrintItem(i)
  {
  }

  lemma MoreCanonical(b: Before, i: Item, items: seq<Item>)
    requires WellFormed(i) && Fits(b, i) && Canonical(After(b, i), items)
    ensures Canonical(b, [i] + items)
  {
    assert ([i] + items)[1..] == items;
  }

  lemma {:induction false} ItemsWritten(b: Before, t: string)
    requires ParseItems(b, t).Some?
    ensures var (items, rest) := ParseItems(b, t).value;
            items != [] && Canonical(b, items) && t == PrintItems(items) + rest
    decreases |t|
  {
    hide ParseItem, PrintItems, PrintItem, Canonical, WellFormed, Fits, After;
    ItemWrites(t);
    var (i, rest) := ParseItem(t).value;
    if Begins(rest, ',') {
      ItemsWritten(After(b, i), rest[1..]);
      var (items, last) := ParseItems(After(b, i), rest[1..]).value;
      assert rest == "," + rest[1..];
      FirstWritten(i, items, t, rest, last);
      MoreCanonical(b, i, items);
    } else {
      OneWritten(b, i);
    }
  }

  // ---- the items of a category set

  /** A finite category set, as its elements in ascending order. */
  ghost predicate Ascending(cats: seq<nat>) {
    && (forall i :: 0 <= i < |cats| ==> cats[i] < NUMBER_LIMIT)
    && (forall i, j :: 0 <= i < j < |cats| ==> cats[i] < cats[j])
  }

  function Span(low: nat, count: nat): (s: seq<nat>)
    ensures |s| == count && forall i :: 0 <= i < count ==> s[i] == low + i
  {
    seq(count, i => low + i)
  }

  /** The categories that items stand for. */
  function Expand(items: seq<Item>): seq<nat>
    decreases |items|
  {
    if items == [] then []
    else (match items[0]
          case One(a) => [a]
          case Run(a, b) => Span(a, if b >= a then b - a + 1 else 0)) + Expand(items[1..])
  }

  /** The length of the run of consecutive categories at the front. */
  function FrontRun(cats: seq<nat>): (k: nat)
    requires cats != []
    ensures 1 <= k <= |cats|
    ensures forall j :: 0 <= j < k ==> cats[j] == cats[0] + j
    ensures k < |cats| ==> cats[k] != cats[0] + k
  {
    FrontRunFrom(cats, 1)
  }

  function FrontRunFrom(cats: seq<nat>, n: nat): (k: nat)
    requires 1 <= n <= |cats| && forall j :: 0 <= j < n ==> cats[j] == cats[0] + j
    ensures n <= k <= |cats|
    ensures forall j :: 0 <= j < k ==> cats[j] == cats[0] + j
    ensures k < |cats| ==> cats[k] != cats[0] + k
    decreases |cats| - n
  {
    if n < |cats| && cats[n] == cats[0] + n then FrontRunFrom(cats, n + 1) else n
  }

  /** How the kernel spells a run. */
  function RunItems(low: nat, count: nat): seq<Item>
    requires count > 0
  {
    if count == 1 then [One(low)] else if count == 2 then [One(low), One(low + 1)] else [Run(low, low + count - 1)]
  }

  function Items(cats: seq<nat>): seq<Item>
    decreases |cats|
  {
    if cats == [] then [] else var k := FrontRun(cats); RunItems(cats[0], k) + Items(cats[k..])
  }

  lemma RunExpands(low: nat, k: nat, rest: seq<Item>)
    requires k > 0
    ensures Expand(RunItems(low, k) + rest) == Span(low, k) + Expand(rest)
  {
    var items := RunItems(low, k) + rest;
    if k == 2 {
      assert items[1..] == [One(low + 1)] + rest;
      assert items[1..][1..] == rest;
      assert Span(low, 2) == [low] + [low + 1];
      assert Expand(items[1..]) == [low + 1] + Expand(rest);
    } else {
      assert items[1..] == rest;
      assert k == 1 ==> Span(low, k) == [low];
    }
  }

  lemma SpanFirst(cats: seq<nat>, k: nat)
    requires 0 < k <= |cats| && forall j :: 0 <= j < k ==> cats[j] == cats[0] + j
    ensures Span(cats[0], k) + cats[k..] == cats
  {
    assert cats[..k] == Span(cats[0], k);
  }

  lemma {:induction false} ItemsExpand(cats: seq<nat>)
    ensures Expand(Items(cats)) == cats
    decreases |cats|
  {
    if cats != [] {
      var k := FrontRun(cats);
      ItemsExpand(cats[k..]);
      RunExpands(cats[0], k, Items(cats[k..]));
      SpanFirst(cats, k);
    }
  }

  lemma RunCanonical(b: Before, low: nat, k: nat, rest: seq<Item>)
    requires k > 0 && low + k <= NUMBER_LIMIT && (b.Before? ==> b.end + 1 < low)
    requires Canonical(Before(low + k - 1, k == 1), rest)
    ensures Canonical(b, RunItems(low, k) + rest)
  {
    var items := RunItems(low, k) + rest;
    if k == 2 {
      var later := items[1..];
      assert later[0] == One(low + 1) && later[1..] == rest;
      assert Canonical(After(b, One(low)), later);
    } else {
      assert items[1..] == rest;
    }
  }

  lemma NoneCanonical(b: Before)
    ensures Canonical(b, [])
  {
  }

  lemma {:induction false} ItemsCanonical(b: Before, cats: seq<nat>)
    requires Ascending(cats) && (cats != [] && b.Before? ==> b.end + 1 < cats[0])
    ensures Canonical(b, Items(cats))
    decreases |cats|
  {
    hide Canonical;
    if cats == [] {
      NoneCanonical(b);
    } else {
      var k := FrontRun(cats);
      assert cats[k - 1] == cats[0] + k - 1;
      ItemsCanonical(Before(cats[0] + k - 1, k == 1), cats[k..]);
      RunCanonical(b, cats[0], k, Items(cats[k..]));
    }
  }

  lemma {:induction false} ExpandFirst(b: Before, items: seq<Item>)
    requires Canonical(b, items)
    ensures Ascending(Expand(items))
    ensures items != [] ==> Expand(items) != [] && Expand(items)[0] == items[0].low
    ensures b.Before? ==> forall i :: 0 <= i < |Expand(items)| ==> b.end < Expand(items)[i]
    decreases |items|
  {
    if items != [] { ExpandFirst(After(b, items[0]), items[1..]); }
  }

  lemma FrontRunIs(cats: seq<nat>, k: nat)
    requires 1 <= k <= |cats| && (forall j :: 0 <= j < k ==> cats[j] == cats[0] + j)
             && (k < |cats| ==> cats[k] != cats[0] + k)
    ensures FrontRun(cats) == k
  {
  }

  lemma FirstRun(cats: seq<nat>)
    requires cats != []
    ensures var k := FrontRun(cats); Items(cats) == RunItems(cats[0], k) + Items(cats[k..])
  {
  }

  /** Canonical items are the items of the set they stand for. */
  lemma {:induction false} CanonicalItems(b: Before, items: seq<Item>)
    requires Canonical(b, items) && (items != [] ==> !Adjacent(b, items[0]))
    ensures Items(Expand(items)) == items
    decreases |items|
  {
    if items != [] {
      var a := items[0];
      var after := After(b, a);
      ExpandFirst(b, items);
      ExpandFirst(after, items[1..]);
      if |items| > 1 && Adjacent(after, items[1]) {
        PairItems(b, items);
        CanonicalItems(After(after, items[1]), items[2..]);
      } else {
        CanonicalItems(after, items[1..]);
        LoneItem(b, items);
      }
    }
  }

  /** The first item is not adjacent to the second: it is a run of its own. */
  lemma LoneItem(b: Before, items: seq<Item>)
    requires Canonical(b, items) && items != [] && !Adjacent(b, items[0])
    requires |items| > 1 ==> !Adjacent(After(b, items[0]), items[1])
    requires Items(Expand(items[1..])) == items[1..]
    ensures Items(Expand(items)) == items
  {
    hide Items, FrontRun;
    var a := items[0];
    var cats := Expand(items);
    var k := if a.One? then 1 else a.high - a.low + 1;
    ExpandFirst(After(b, a), items[1..]);
    assert cats[k..] == Expand(items[1..]);
    FrontRunIs(cats, k);
    FirstRun(cats);
    assert items == [a] + items[1..];
  }

  /** Two adjacent singles: a run of two. */
  lemma PairItems(b: Before, items: seq<Item>)
    requires Canonical(b, items) && |items| > 1 && Adjacent(After(b, items[0]), items[1])
    requires !Adjacent(b, items[0])
    ensures Canonical(After(After(b, items[0]), items[1]), items[2..])
    ensures |items| > 2 ==> !Adjacent(After(After(b, items[0]), items[1]), items[2])
    ensures Items(Expand(items[2..])) == items[2..] ==> Items(Expand(items)) == items
  {
    hide Expand, Canonical, Items, FrontRun, Ascending, After, Adjacent;
    PairExpands(b, items);
    var cats := Expand(items);
    FrontRunIs(cats, 2);
    FirstRun(cats);
    assert RunItems(cats[0], 2) == [items[0], items[1]];
    TwoAndRest(items);
  }

  lemma TwoAndRest(items: seq<Item>)
    requires |items| >= 2
    ensures items == [items[0], items[1]] + items[2..]
  {
  }

  lemma PairExpands(b: Before, items: seq<Item>)
    requires Canonical(b, items) && |items| > 1 && Adjacent(After(b, items[0]), items[1])
    ensures var cats := Expand(items);
            && |cats| >= 2 && cats[0] == items[0].low && cats[1] == items[1].low == cats[0] + 1
            && cats[2..] == Expand(items[2..]) && (|cats| > 2 ==> cats[2] != cats[0] + 2)
            && items[0].One? && items[1].One?
    ensures Canonical(After(After(b, items[0]), items[1]), items[2..])
    ensures |items| > 2 ==> !Adjacent(After(After(b, items[0]), items[1]), items[2])
  {
    var after := After(b, items[0]);
    var rest := items[1..];
    assert rest[0] == items[1] && rest[1..] == items[2..];
    ExpandFirst(After(after, items[1]), items[2..]);
    hide Ascending;
    assert Expand(items) == [items[0].low] + Expand(rest);
    assert Expand(rest) == [items[1].low] + Expand(rest[1..]);
  }

  // ---- levels and ranges

  datatype Level = Level(sensitivity: nat, categories: seq<nat>)

  ghost predicate ValidLevel(l: Level) { l.sensitivity < NUMBER_LIMIT && Ascending(l.categories) }

  function PrintLevel(l: Level): string {
    "s" + Decimal(l.sensitivity) +
    (if l.categories == [] then ""
     else var items := Items(l.categories); if items == [] then "" else ":" + PrintItems(items))
  }

  /** A level at the front of a text, and the rest. */
  function ParseLevel(t: string): Option<(Level, string)> {
    if !Begins(t, 's') then None
    else
      match ParseNumber(t[1..])
      case None => None
      case Some((n, rest)) =>
        if !Begins(rest, ':') then Some((Level(n, []), rest))
        else
          match ParseItems(Nothing, rest[1..])
          case None => None
          case Some((items, last)) => Some((Level(n, Expand(items)), last))
  }

  /** What may follow a level: nothing, or the dash before another. */
  predicate Ends(rest: string) { rest == [] || rest[0] == '-' }

  lemma ItemsNotEmpty(cats: seq<nat>)
    requires cats != []
    ensures Items(cats) != []
  {
  }

  lemma BareLevelReads(n: nat, rest: string)
    requires n < NUMBER_LIMIT && Ends(rest)
    ensures ParseLevel("s" + Decimal(n) + rest) == Some((Level(n, []), rest))
  {
    hide ParseNumber, Decimal;
    var t := "s" + Decimal(n) + rest;
    assert t[1..] == Decimal(n) + rest;
    NumberReads(n, rest);
  }

  lemma ParsesAs(t: string, n: nat, later: string, items: seq<Item>, rest: string)
    requires Begins(t, 's') && ParseNumber(t[1..]) == Some((n, ":" + later))
             && ParseItems(Nothing, later) == Some((items, rest))
    ensures ParseLevel(t) == Some((Level(n, Expand(items)), rest))
  {
    assert (":" + later)[1..] == later;
  }

  lemma FullLevelReads(n: nat, items: seq<Item>, rest: string)
    requires n < NUMBER_LIMIT && items != [] && Canonical(Nothing, items) && Ends(rest)
    ensures ParseLevel("s" + (Decimal(n) + (":" + (PrintItems(items) + rest)))) == Some((Level(n, Expand(items)), rest))
  {
    var later := PrintItems(items) + rest;
    NumberReads(n, ":" + later);
    ItemsRead(Nothing, items, rest);
    AfterS(Decimal(n) + (":" + later));
    ParsesAs("s" + (Decimal(n) + (":" + later)), n, later, items, rest);
  }

  lemma AfterS(x: string)
    ensures Begins("s" + x, 's') && ("s" + x)[1..] == x
  {
  }

  lemma LevelReads(l: Level, rest: string)
    requires ValidLevel(l) && Ends(rest)
    ensures ParseLevel(PrintLevel(l) + rest) == Some((l, rest))
  {
    if l.categories == [] {
      assert PrintLevel(l) == "s" + Decimal(l.sensitivity);
      BareLevelReads(l.sensitivity, rest);
    } else {
      ItemsNotEmpty(l.categories);
      ItemsCanonical(Nothing, l.categories);
      ItemsExpand(l.categories);
      LevelText(Decimal(l.sensitivity), PrintItems(Items(l.categories)), rest);
      FullLevelReads(l.sensitivity, Items(l.categories), rest);
    }
  }

  lemma LevelText(number: string, items: string, rest: string)
    ensures "s" + number + (":" + items) + rest == "s" + (number + (":" + (items + rest)))
  {
  }

  lemma LevelWrites(t: string)
    requires ParseLevel(t).Some?
    ensures var (l, rest) := ParseLevel(t).value; ValidLevel(l) && t == PrintLevel(l) + rest
  {
    hide ParseNumber, ParseItems, PrintItems, Items, Expand, Canonical;
    NumberWrites(t[1..]);
    var (n, rest) := ParseNumber(t[1..]).value;
    assert t == "s" + t[1..];
    if Begins(rest, ':') {
      ItemsWritten(Nothing, rest[1..]);
      var (items, last) := ParseItems(Nothing, rest[1..]).value;
      assert rest == ":" + rest[1..];
      CanonicalItems(Nothing, items);
      ExpandFirst(Nothing, items);
      LevelText(Decimal(n), PrintItems(items), last);
    } else {
      assert "s" + (Decimal(n) + rest) == "s" + Decimal(n) + "" + rest;
    }
  }

  /** The text of a level determines it. */
  lemma LevelsByText(l: Level, m: Level)
    requires ValidLevel(l) && ValidLevel(m)
    ensures PrintLevel(l) == PrintLevel(m) <==> l == m
  {
    LevelReads(l, []);
    LevelReads(m, []);
    assert PrintLevel(l) + [] == PrintLevel(l) && PrintLevel(m) + [] == PrintLevel(m);
  }

  lemma AllButLast(a: seq<nat>, c: nat)
    requires Ascending(a) && a != []
    ensures c in a[..|a| - 1] <==> c in a && c != a[|a| - 1]
  {
  }

  ghost predicate SameElements(a: seq<nat>, b: seq<nat>) { forall c :: c in a <==> c in b }

  lemma LastIsGreatest(a: seq<nat>, b: seq<nat>)
    requires Ascending(a) && Ascending(b) && a != [] && SameElements(a, b)
    ensures b != [] && a[|a| - 1] == b[|b| - 1]
  {
    assert a[|a| - 1] in b;
    assert b[|b| - 1] in a;
  }

  lemma FrontsAgree(a: seq<nat>, b: seq<nat>)
    requires Ascending(a) && Ascending(b) && a != [] && b != [] && a[|a| - 1] == b[|b| - 1] && SameElements(a, b)
    ensures Ascending(a[..|a| - 1]) && Ascending(b[..|b| - 1]) && SameElements(a[..|a| - 1], b[..|b| - 1])
  {
    var frontOfA, frontOfB := a[..|a| - 1], b[..|b| - 1];
    forall c
      ensures c in frontOfA <==> c in frontOfB
    {
      AllButLast(a, c);
      AllButLast(b, c);
    }
  }

  lemma SomeAreSome(b: seq<nat>)
    ensures b != [] ==> exists c :: c in b
  {
    if b != [] { assert b[0] in b; }
  }

  lemma NoneAreNone(b: seq<nat>)
    requires SameElements([], b)
    ensures b == []
  {
    SomeAreSome(b);
  }

  lemma FrontAndLast(a: seq<nat>)
    requires a != []
    ensures a == a[..|a| - 1] + [a[|a| - 1]]
  {
  }

  /** A category set has one ascending list, so level texts are equal exactly when
      the sensitivities are and the category sets are. */
  lemma {:induction false} AscendingIsUnique(a: seq<nat>, b: seq<nat>)
    requires Ascending(a) && Ascending(b) && SameElements(a, b)
    ensures a == b
    decreases |a|
  {
    hide Ascending, SameElements;
    if a == [] {
      NoneAreNone(b);
    } else {
      LastIsGreatest(a, b);
      FrontsAgree(a, b);
      AscendingIsUnique(a[..|a| - 1], b[..|b| - 1]);
      FrontAndLast(a);
      FrontAndLast(b);
    }
  }

  lemma {:induction false} CategorySetsHaveLists(s: set<nat>) returns (cats: seq<nat>)
    requires forall c :: c in s ==> c < NUMBER_LIMIT
    ensures Ascending(cats) && forall c :: c in cats <==> c in s
    decreases |s|
  {
    if s == {} {
      cats := [];
    } else {
      var m := Greatest(s);
      var rest := CategorySetsHaveLists(s - {m});
      cats := rest + [m];
      assert forall i :: 0 <= i < |rest| ==> rest[i] in s - {m};
      assert forall c :: c in cats <==> c in rest || c == m;
    }
  }

  lemma {:induction false} Greatest(s: set<nat>) returns (m: nat)
    requires s != {}
    ensures m in s && forall c :: c in s ==> c <= m
    decreases |s|
  {
    var first :| first in s;
    m := first;
    if s != {first} {
      var other := Greatest(s - {first});
      if other > first { m := other; }
    }
    forall c | c in s
      ensures c <= m
    {
      assert c == first || c in s - {first};
    }
  }

  lemma LevelTextIsSetEquality(l: Level, m: Level)
    requires ValidLevel(l) && ValidLevel(m)
    ensures PrintLevel(l) == PrintLevel(m) <==>
            l.sensitivity == m.sensitivity && forall c :: c in l.categories <==> c in m.categories
  {
    LevelsByText(l, m);
    if forall c :: c in l.categories <==> c in m.categories { AscendingIsUnique(l.categories, m.categories); }
  }

  /** The accepted range texts. */
  predicate Accepts(t: string) {
    match ParseLevel(t)
    case None => false
    case Some((low, rest)) =>
      rest == [] ||
      (rest[0] == '-' &&
       match ParseLevel(rest[1..])
       case None => false
       case Some((high, last)) => high != low && last == [])
  }

  ghost predicate Prints(t: string, low: Level, high: Level) {
    && ValidLevel(low) && ValidLevel(high)
    && t == if low == high then PrintLevel(low) else PrintLevel(low) + "-" + PrintLevel(high)
  }

  /** A text is accepted exactly when it prints a range of levels. */
  lemma AcceptsWhatIsPrinted(t: string)
    ensures Accepts(t) <==> exists low, high :: Prints(t, low, high)
  {
    hide ParseLevel, PrintLevel, ValidLevel;
    if Accepts(t) {
      LevelWrites(t);
      var (low, rest) := ParseLevel(t).value;
      if rest == [] {
        assert t == PrintLevel(low);
        assert Prints(t, low, low);
      } else {
        LevelWrites(rest[1..]);
        var (high, last) := ParseLevel(rest[1..]).value;
        assert rest == "-" + rest[1..];
        assert PrintLevel(high) + [] == PrintLevel(high);
        assert t == PrintLevel(low) + "-" + PrintLevel(high);
        assert Prints(t, low, high);
      }
    }
    if exists low, high :: Prints(t, low, high) {
      var low, high :| Prints(t, low, high);
      PrintedIsAccepted(t, low, high);
    }
  }

  lemma TwoAreAccepted(t: string, low: Level, rest: string, high: Level)
    requires ParseLevel(t) == Some((low, "-" + rest)) && ParseLevel(rest) == Some((high, [])) && low != high
    ensures Accepts(t)
  {
    assert ("-" + rest)[1..] == rest;
  }

  lemma DashText(a: string, b: string)
    ensures a + "-" + b == a + ("-" + b)
  {
  }

  lemma PrintedIsAccepted(t: string, low: Level, high: Level)
    requires Prints(t, low, high)
    ensures Accepts(t)
  {
    if low == high {
      OneIsAccepted(low);
    } else {
      DashText(PrintLevel(low), PrintLevel(high));
      LevelReads(low, "-" + PrintLevel(high));
      ReadsAlone(high);
      TwoAreAccepted(t, low, PrintLevel(high), high);
    }
  }

  lemma ReadsAlone(l: Level)
    requires ValidLevel(l)
    ensures ParseLevel(PrintLevel(l)) == Some((l, []))
  {
    LevelReads(l, []);
    assert PrintLevel(l) + [] == PrintLevel(l);
  }

  lemma OneIsAccepted(l: Level)
    requires ValidLevel(l)
    ensures Accepts(PrintLevel(l))
  {
    ReadsAlone(l);
  }

  // ---- the parser object

  class Range {
    const text: string
    var at: nat

    constructor (text: string)
      ensures this.text == text && at == 0
    {
      this.text, at := text, 0;
    }

    predicate Inside()
      reads this
    {
      at <= |text|
    }

    ghost function Rest(): string
      requires Inside()
      reads this
    {
      text[at..]
    }

    method Take(c: char) returns (ok: bool)
      requires Inside()
      modifies this
      ensures Inside() && ok == Begins(old(Rest()), c)
      ensures Rest() == if ok then old(Rest())[1..] else old(Rest())
      ensures at == old(at) + if ok then 1 else 0
    {
      if at == |text| || text[at] != c { return false; }
      at := at + 1;
      return true;
    }

    method Number() returns (ok: bool, value: nat)
      requires Inside()
      modifies this
      ensures Inside() && at >= old(at)
      ensures ok <==> ParseNumber(old(Rest())).Some?
      ensures ok ==> ParseNumber(old(Rest())).value == (value, Rest())
    {
      hide ParseNumber, Leading;
      var begin := at;
      ghost var t := Rest();
      value := 0;
      while at < |text| && at - begin < 9 && Digit(text[at])
        invariant begin <= at <= |text| && at - begin <= 9 && at - begin <= Leading(t)
        invariant value == FromDecimal(t[..at - begin])
        decreases |text| - at
      {
        LeadingGoesOn(t, at - begin);
        assert t[..at - begin + 1][..at - begin] == t[..at - begin];
        value := 10 * value + DigitValue(text[at]);
        at := at + 1;
      }
      var digits := at - begin;
      LeadingEnds(t, digits);
      ok := digits != 0 && (digits == 1 || text[begin] != '0') && (at == |text| || !Digit(text[at]));
      assert t[digits..] == text[at..] && (digits > 0 ==> t[0] == text[begin]);
      NumberIs(t);
    }

    /** An item and its fit; on success the parser stands after it. */
    method ReadItem() returns (ok: bool, item: Item)
      requires Inside()
      modifies this
      ensures Inside() && at >= old(at)
      ensures ok <==> ParseItem(old(Rest())).Some?
      ensures ok ==> ParseItem(old(Rest())).value == (item, Rest())
    {
      hide ParseNumber;
      item := One(0);
      ok := Take('c');
      if !ok { return; }
      var low: nat;
      ok, low := Number();
      if !ok { return; }
      var run := Take('.');
      if !run { return true, One(low); }
      ok := Take('c');
      if !ok { return; }
      var high: nat;
      ok, high := Number();
      if !ok { return; }
      return high >= low + 2, Run(low, high);
    }

    /** The comma separated items after the colon. */
    method ReadItems() returns (ok: bool, ghost items: seq<Item>)
      requires Inside()
      modifies this
      ensures Inside() && at >= old(at)
      ensures ok <==> ParseItems(Nothing, old(Rest())).Some?
      ensures ok ==> ParseItems(Nothing, old(Rest())).value == (items, Rest())
    {
      hide ParseItem, ParseItems, Resumes;
      var first, pairable, end := true, false, 0;
      ghost var before := Nothing;
      ghost var start := Rest();
      items := [];
      ResumesFirst(start);
      while true
        invariant Inside() && at >= old(at)
        invariant before == if first then Nothing else Before(end, pairable)
        invariant Resumes(Nothing, start, items, before, Rest())
        decreases |text| - at
      {
        ghost var t := Rest();
        ResumesFails(Nothing, start, items, before, t);
        var item: Item;
        ok, item := ReadItem();
        if !ok { return; }
        var adjacent := !first && item.low == end + 1;
        if (!first && item.low <= end) || (adjacent && (item.Run? || !pairable)) { return false, items; }
        pairable := item.One? && !adjacent;
        end, first := End(item), false;
        var more := Take(',');
        ResumesOne(Nothing, start, items, before, t);
        before := After(before, item);
        items := items + [item];
        if !more { return true, items; }
      }
    }

    /** Reads past a level. */
    method PassLevel() returns (ok: bool)
      requires Inside()
      modifies this
      ensures Inside() && at >= old(at)
      ensures ok <==> ParseLevel(old(Rest())).Some?
      ensures ok ==> ParseLevel(old(Rest())).value.1 == Rest()
    {
      ok := Take('s');
      if !ok { return; }
      var value: nat;
      ok, value := Number();
      if !ok { return; }
      var colon := Take(':');
      if colon {
        ghost var items;
        ok, items := ReadItems();
      }
    }

    /** A level; the answer is its text, or nothing when it is malformed. */
    method ReadLevel() returns (found: string)
      requires Inside()
      modifies this
      ensures Inside() && at >= old(at)
      ensures found == [] <==> ParseLevel(old(Rest())).None?
      ensures found != [] ==>
                var (l, rest) := ParseLevel(old(Rest())).value;
                Rest() == rest && found == PrintLevel(l) && ValidLevel(l)
    {
      var begin := at;
      var ok := PassLevel();
      if !ok { return []; }
      found := text[begin..at];
      TextOfLevel(text, begin, at);
    }

    /** True exactly for the texts that print a range. */
    method Valid() returns (ok: bool)
      requires at == 0
      modifies this
      ensures ok == Accepts(text)
    {
      assert text[0..] == text;
      var low := ReadLevel();
      if low == [] { return false; }
      ghost var middle := Rest();
      var dash := Take('-');
      if dash {
        var high := ReadLevel();
        if high == [] { return false; }
        LevelsByText(ParseLevel(text).value.0, ParseLevel(middle[1..]).value.0);
        if high == low { return false; }
      }
      return at == |text|;
    }
  }

  lemma LevelHasText(l: Level)
    ensures PrintLevel(l) != []
  {
  }

  lemma FrontIs(text: string, begin: nat, at: nat, front: string)
    requires begin <= at <= |text| && text[begin..] == front + text[at..]
    ensures text[begin..at] == front
  {
    assert text[begin..] == text[begin..at] + text[at..];
    SameFront(text[begin..at], front, text[at..]);
  }

  lemma TextOfLevel(text: string, begin: nat, at: nat)
    requires begin <= at <= |text| && ParseLevel(text[begin..]).Some? && ParseLevel(text[begin..]).value.1 == text[at..]
    ensures var l := ParseLevel(text[begin..]).value.0;
            ValidLevel(l) && text[begin..at] == PrintLevel(l) && PrintLevel(l) != []
  {
    LevelWrites(text[begin..]);
    LevelHasText(ParseLevel(text[begin..]).value.0);
    FrontIs(text, begin, at, PrintLevel(ParseLevel(text[begin..]).value.0));
  }

  lemma SameFront(a: string, b: string, rest: string)
    requires a + rest == b + rest
    ensures a == b
  {
    assert |a| == |b|;
    assert a == (a + rest)[..|a|];
    assert b == (b + rest)[..|b|];
  }

  lemma {:induction false} LeadingGoesOn(t: string, k: nat)
    requires k <= Leading(t) && k < |t| && Digit(t[k])
    ensures k < Leading(t)
  {
  }

  lemma LeadingEnds(t: string, k: nat)
    requires k <= Leading(t) && (k == |t| || !Digit(t[k]) || k == 9)
    ensures k == |t| || !Digit(t[k]) ==> Leading(t) == k
    ensures k < |t| && Digit(t[k]) ==> Leading(t) > 9
  {
    if k < |t| && k < Leading(t) { assert Digit(t[..Leading(t)][k]); }
  }

  /** The items read so far, and what is still to be read, make up the whole. */
  ghost predicate Resumes(b: Before, t: string, items: seq<Item>, now: Before, rest: string) {
    match ParseItems(now, rest)
    case None => ParseItems(b, t).None?
    case Some((more, last)) => ParseItems(b, t) == Some((items + more, last))
  }

  lemma ResumesFirst(t: string)
    ensures Resumes(Nothing, t, [], Nothing, t)
  {
    if ParseItems(Nothing, t).Some? { assert [] + ParseItems(Nothing, t).value.0 == ParseItems(Nothing, t).value.0; }
  }

  lemma ResumesFails(b: Before, t: string, items: seq<Item>, now: Before, rest: string)
    requires Resumes(b, t, items, now, rest)
    ensures ParseItem(rest).None? || !Fits(now, ParseItem(rest).value.0) ==> ParseItems(b, t).None?
  {
    hide ParseItem;
  }

  lemma ResumesOne(b: Before, t: string, items: seq<Item>, now: Before, rest: string)
    requires Resumes(b, t, items, now, rest) && ParseItem(rest).Some? && Fits(now, ParseItem(rest).value.0)
    ensures var (i, last) := ParseItem(rest).value;
            if Begins(last, ',') then Resumes(b, t, items + [i], After(now, i), last[1..])
            else ParseItems(b, t) == Some((items + [i], last))
  {
    hide ParseItem;
    var (i, last) := ParseItem(rest).value;
    if Begins(last, ',') && ParseItems(After(now, i), last[1..]).Some? {
      var (more, end) := ParseItems(After(now, i), last[1..]).value;
      assert items + ([i] + more) == items + [i] + more;
    }
  }
}
