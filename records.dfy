/** Rows of the spreadsheet as the Python code sees them: dictionaries from
    column name to a cell value, read with `dict.get` and turned into text
    with `str(...)`. */
module Records {
  import opened Text

  datatype Option<T> = None | Some(value: T)

  /** A cell value: Python `None`, a `str` or an `int`. */
  datatype Value = Null | Str(s: string) | Int(i: int)

  /** One row of a sheet, keyed by column name. */
  type Record = map<string, Value>

  /** `r.get(col)`: `None` when the column is absent. */
  function Get(r: Record, col: string): Value {
    if col in r then r[col] else Null
  }

  /** `r.get(col, d)`: the default only when the column is absent. */
  function GetOr(r: Record, col: string, d: Value): Value {
    if col in r then r[col] else d
  }

  /** `str(v)` */
  function Display(v: Value): string {
    match v
    case Null => "None"
    case Str(s) => s
    case Int(i) => IntToDecimal(i)
  }

  /** Python truthiness: `None`, `''` and `0` are false. */
  predicate Truthy(v: Value) {
    match v
    case Null => false
    case Str(s) => s != []
    case Int(i) => i != 0
  }

  /** `str(r.get(col, '')).strip()`: the text key the indexes use. */
  function KeyText(r: Record, col: string): (k: string)
    ensures IsStripped(k)
    ensures col !in r ==> k == []
  {
    Strip(Display(GetOr(r, col, Str(""))))
  }

  // ---------------------------------------------------------------------
  // Sequence helpers

  ghost predicate NoDup<T>(s: seq<T>) {
    forall i, j :: 0 <= i < j < |s| ==> s[i] != s[j]
  }

  function ToSet<T>(s: seq<T>): set<T> {
    set x | x in s
  }

  /** Two duplicate-free lists with no common element concatenate to a
      duplicate-free list. */
  lemma NoDupConcat<T>(a: seq<T>, b: seq<T>)
    requires NoDup(a) && NoDup(b)
    requires forall x :: x in a ==> x !in b
    ensures NoDup(a + b)
  {
    forall i, j | 0 <= i < j < |a + b| ensures (a + b)[i] != (a + b)[j] {
      if i < |a| && j >= |a| {
        assert (a + b)[i] in a && (a + b)[j] in b;
      }
    }
  }

  /** The parts of a duplicate-free concatenation are duplicate-free and
      share no element. */
  lemma NoDupSplit<T>(a: seq<T>, b: seq<T>)
    requires NoDup(a + b)
    ensures NoDup(a) && NoDup(b)
    ensures forall x :: x in a ==> x !in b
  {
    assert forall i :: 0 <= i < |a| ==> (a + b)[i] == a[i];
    assert forall j :: 0 <= j < |b| ==> (a + b)[|a| + j] == b[j];
    forall x | x in a ensures x !in b {
      var i :| 0 <= i < |a| && a[i] == x;
      forall j | 0 <= j < |b| ensures b[j] != x {
        assert (a + b)[i] != (a + b)[|a| + j];
      }
    }
  }

  /** A duplicate-free list has as many elements as its set. */
  lemma NoDupCard<T>(s: seq<T>)
    requires NoDup(s)
    ensures |ToSet(s)| == |s|
  {
    if s != [] {
      var t := s[..|s| - 1];
      assert NoDup(t);
      NoDupCard(t);
      assert ToSet(s) == ToSet(t) + {s[|s| - 1]};
      assert s[|s| - 1] !in ToSet(t);
    }
  }

  /** `[f(x) for x in xs if p(x)]` */
  function FilterMap<T, U>(xs: seq<T>, p: T -> bool, f: T -> U): seq<U> {
    if xs == [] then []
    else FilterMap(xs[..|xs| - 1], p, f) + if p(xs[|xs| - 1]) then [f(xs[|xs| - 1])] else []
  }

  /** An element of the comprehension is the image of some selected element. */
  lemma {:induction false} FilterMapMember<T, U>(xs: seq<T>, p: T -> bool, f: T -> U, y: U)
    ensures y in FilterMap(xs, p, f) <==> exists i :: 0 <= i < |xs| && p(xs[i]) && y == f(xs[i])
  {
    if xs != [] {
      var init := xs[..|xs| - 1];
      FilterMapMember(init, p, f, y);
      if exists i :: 0 <= i < |xs| && p(xs[i]) && y == f(xs[i]) {
        var i :| 0 <= i < |xs| && p(xs[i]) && y == f(xs[i]);
        if i < |init| {
          assert init[i] == xs[i];
        }
      }
      if y in FilterMap(init, p, f) {
        var i :| 0 <= i < |init| && p(init[i]) && y == f(init[i]);
        assert xs[i] == init[i];
      }
    }
  }

  /** `[y for x in xs for y in f(x)]` */
  function FlatMap<T, U>(xs: seq<T>, f: T -> seq<U>): seq<U> {
    if xs == [] then [] else FlatMap(xs[..|xs| - 1], f) + f(xs[|xs| - 1])
  }

  /** An element of the flattened list comes from the list of some element. */
  lemma {:induction false} FlatMapMember<T, U>(xs: seq<T>, f: T -> seq<U>, y: U)
    ensures y in FlatMap(xs, f) <==> exists k :: 0 <= k < |xs| && y in f(xs[k])
  {
    if xs != [] {
      var init := xs[..|xs| - 1];
      FlatMapMember(init, f, y);
      if exists k :: 0 <= k < |xs| && y in f(xs[k]) {
        var k :| 0 <= k < |xs| && y in f(xs[k]);
        if k < |init| {
          assert init[k] == xs[k];
        }
      }
      if y in FlatMap(init, f) {
        var k :| 0 <= k < |init| && y in f(init[k]);
        assert xs[k] == init[k];
      }
    }
  }
}
