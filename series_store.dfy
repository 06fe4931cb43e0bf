/**
 * The series store: a table of OHLCV bars whose price columns are fixed
 * and to which the indicator functions append derived columns in place.
 * A derived column holds one optional value per bar; `None` stands for the
 * "not a number" marker that a rolling window with too little history leaves.
 */
module SeriesStore {

  datatype Option<+T> = None | Some(value: T)

  /** One bar as delivered by the market-data collaborator. */
  datatype Bar = Bar(timestamp: int, open: real, high: real, low: real, close: real, volume: real)

  /** A derived column: one optional value per row of the table. */
  type Column = seq<Option<real>>

  /** The names of the derived columns the engine writes. */
  datatype Col =
    | RSI | MACD | SignalLine
    | BBMiddle | BBUpper | BBLower
    | Fib0 | Fib236 | Fib382 | Fib500 | Fib618 | Fib100
    | Support | Resistance | Momentum
    | PP | R1 | S1 | R2 | S2

  /** A column of values that are defined at every row. */
  function Defined(x: seq<real>): (r: Column)
    ensures |r| == |x| && forall i :: 0 <= i < |x| ==> r[i] == Some(x[i])
  {
    seq(|x|, i requires 0 <= i < |x| => Some(x[i]))
  }

  /* Arithmetic on possibly undefined values: an undefined operand makes the result undefined. */

  function Add(a: Option<real>, b: Option<real>): Option<real> {
    if a.Some? && b.Some? then Some(a.value + b.value) else None
  }

  function Sub(a: Option<real>, b: Option<real>): Option<real> {
    if a.Some? && b.Some? then Some(a.value - b.value) else None
  }

  function Scale(a: Option<real>, k: real): Option<real> {
    if a.Some? then Some(a.value * k) else None
  }

  function Highs(bars: seq<Bar>): (r: seq<real>)
    ensures |r| == |bars| && forall i :: 0 <= i < |bars| ==> r[i] == bars[i].high
  {
    seq(|bars|, i requires 0 <= i < |bars| => bars[i].high)
  }

  function Lows(bars: seq<Bar>): (r: seq<real>)
    ensures |r| == |bars| && forall i :: 0 <= i < |bars| ==> r[i] == bars[i].low
  {
    seq(|bars|, i requires 0 <= i < |bars| => bars[i].low)
  }

  function Closes(bars: seq<Bar>): (r: seq<real>)
    ensures |r| == |bars| && forall i :: 0 <= i < |bars| ==> r[i] == bars[i].close
  {
    seq(|bars|, i requires 0 <= i < |bars| => bars[i].close)
  }

  function Volumes(bars: seq<Bar>): (r: seq<real>)
    ensures |r| == |bars| && forall i :: 0 <= i < |bars| ==> r[i] == bars[i].volume
  {
    seq(|bars|, i requires 0 <= i < |bars| => bars[i].volume)
  }

  /**
   * The column order after assigning column `c`: a column already present
   * keeps its place, a new one goes to the end.
   */
  function Placed(names: seq<Col>, c: Col): (r: seq<Col>)
    ensures c in r
    ensures forall d :: d in r <==> d in names || d == c
  {
    if c in names then names else names + [c]
  }

  /** The column order after assigning the columns `cs` one after another. */
  function PlacedAll(names: seq<Col>, cs: seq<Col>): seq<Col>
    decreases |cs|
  {
    if cs == [] then names else PlacedAll(Placed(names, cs[0]), cs[1..])
  }

  /** Assigning columns that are new and distinct appends them in assignment order. */
  lemma {:induction false} PlacedAllAppends(names: seq<Col>, cs: seq<Col>)
    requires NewColumns(names, cs)
    ensures PlacedAll(names, cs) == names + cs
    decreases |cs|
  {
    if cs != [] {
      assert cs[0] in cs;
      assert forall c :: c in cs[1..] ==> c in cs && c != cs[0];
      PlacedAllAppends(names + [cs[0]], cs[1..]);
      assert names + [cs[0]] + cs[1..] == names + cs;
    }
  }

  ghost predicate Distinct(names: seq<Col>) {
    forall i, j :: 0 <= i < j < |names| ==> names[i] != names[j]
  }

  /** The position of a column in the declaration of `Col`. */
  function Rank(c: Col): nat {
    match c
    case RSI => 0 case MACD => 1 case SignalLine => 2
    case BBMiddle => 3 case BBUpper => 4 case BBLower => 5
    case Fib0 => 6 case Fib236 => 7 case Fib382 => 8 case Fib500 => 9 case Fib618 => 10 case Fib100 => 11
    case Support => 12 case Resistance => 13 case Momentum => 14
    case PP => 15 case R1 => 16 case S1 => 17 case R2 => 18 case S2 => 19
  }

  /** Columns listed in strictly increasing declaration order. */
  ghost predicate Ascending(names: seq<Col>) {
    forall i :: 0 < i < |names| ==> Rank(names[i - 1]) < Rank(names[i])
  }

  /** In an ascending list every later column ranks above every earlier one. */
  lemma {:induction false} AscendingRanks(names: seq<Col>, i: nat, j: nat)
    requires Ascending(names) && i < j < |names|
    ensures Rank(names[i]) < Rank(names[j])
    decreases j - i
  {
    if i + 1 < j {
      AscendingRanks(names, i + 1, j);
    }
  }

  /** Two ascending lists, the second starting above the end of the first, join into one. */
  lemma AscendingJoin(a: seq<Col>, b: seq<Col>)
    requires Ascending(a) && Ascending(b)
    requires a != [] && b != [] ==> Rank(a[|a| - 1]) < Rank(b[0])
    ensures Ascending(a + b)
  {
    var ab := a + b;
    forall i | 0 < i < |ab|
      ensures Rank(ab[i - 1]) < Rank(ab[i])
    {
      if i < |a| {
        assert ab[i - 1] == a[i - 1] && ab[i] == a[i];
      } else if i == |a| {
        assert ab[i - 1] == a[|a| - 1] && ab[i] == b[0];
      } else {
        assert ab[i - 1] == b[i - 1 - |a|] && ab[i] == b[i - |a|];
      }
    }
  }

  /** The columns after `names` in an ascending list are distinct and new. */
  lemma AscendingNew(names: seq<Col>, cs: seq<Col>)
    requires Ascending(names + cs)
    ensures NewColumns(names, cs)
  {
    var all := names + cs;
    forall i, j | 0 <= i < j < |all|
      ensures all[i] != all[j]
    {
      AscendingRanks(all, i, j);
    }
    forall i, j | 0 <= i < j < |cs|
      ensures cs[i] != cs[j]
    {
      assert cs[i] == all[|names| + i] && cs[j] == all[|names| + j];
    }
    forall c | c in cs
      ensures c !in names
    {
      var j :| 0 <= j < |cs| && cs[j] == c;
      assert all[|names| + j] == c;
      forall i | 0 <= i < |names|
        ensures names[i] != c
      {
        assert all[i] == names[i];
      }
    }
  }

  /** `cs` names distinct columns none of which is among `names` yet. */
  ghost predicate NewColumns(names: seq<Col>, cs: seq<Col>) {
    Distinct(cs) && forall c :: c in cs ==> c !in names
  }

  /** The table: fixed price columns and the derived columns added so far. */
  class Frame {
    const high: seq<real>
    const low: seq<real>
    const close: seq<real>
    const volume: seq<real>
    var names: seq<Col>
    var cols: map<Col, Column>

    /** All columns have the row count; `names` lists the derived columns once each. */
    ghost predicate Valid()
      reads this
    {
      |high| == |close| && |low| == |close| && |volume| == |close| &&
      Distinct(names) &&
      (forall c :: c in cols <==> c in names) &&
      (forall c :: c in cols ==> |cols[c]| == |close|)
    }

    constructor (bars: seq<Bar>)
      ensures Valid() && names == [] && cols == map[]
      ensures high == Highs(bars) && low == Lows(bars)
      ensures close == Closes(bars) && volume == Volumes(bars)
    {
      high, low, close, volume := Highs(bars), Lows(bars), Closes(bars), Volumes(bars);
      names, cols := [], map[];
    }

    /** `data[c] = v`: overwrite or append one derived column. */
    method SetColumn(c: Col, v: Column)
      requires Valid() && |v| == |close|
      modifies this
      ensures Valid()
      ensures cols == old(cols)[c := v]
      ensures names == Placed(old(names), c)
    {
      if c !in names {
        names := names + [c];
      }
      cols := cols[c := v];
    }
  }
}
