/** Small mathematical vocabulary shared by the models: optional values, sums over the rows
    of a table, and counting of row identifiers. */
module Common {

  datatype Option<+T> = None | Some(value: T)

  function Max(a: int, b: int): int {
    if a < b then b else a
  }

  function Min(a: int, b: int): int {
    if a < b then a else b
  }

  /** The UTF-8 encoding of one code point (section 3 of RFC 3629). */
  function Utf8Encode(c: char): (bytes: seq<int>)
    ensures forall b :: b in bytes ==> 0 <= b < 256
  {
    var n := c as int;
    if n <= 0x7f then [n]
    else if n <= 0x7ff then [0xc0 + n / 64, 0x80 + n % 64]
    else if n <= 0xffff then [0xe0 + n / 4096, 0x80 + n / 64 % 64, 0x80 + n % 64]
    else [0xf0 + n / 262144, 0x80 + n / 4096 % 64, 0x80 + n / 64 % 64, 0x80 + n % 64]
  }

  /** SQL's SUM of one column over every row of a table. */
  ghost function Sum<K, V>(rows: map<K, V>, column: V -> int): int
    decreases |rows|
  {
    if rows == map[] then 0
    else
      var k :| k in rows;
      column(rows[k]) + Sum(rows - {k}, column)
  }

  /** The order in which rows are added up does not matter. */
  lemma {:induction false} SumSplit<K, V>(rows: map<K, V>, column: V -> int, k: K)
    requires k in rows
    ensures Sum(rows, column) == column(rows[k]) + Sum(rows - {k}, column)
    decreases |rows|
  {
    var first :| first in rows && Sum(rows, column) == column(rows[first]) + Sum(rows - {first}, column);
    if first != k {
      SumSplit(rows - {first}, column, k);
      SumSplit(rows - {k}, column, first);
      assert rows - {first} - {k} == rows - {k} - {first};
    }
  }

  /** An UPDATE of one row changes a sum by the difference of the two row values, and an
      INSERT adds the new row's value. */
  lemma SumWrite<K, V>(rows: map<K, V>, column: V -> int, k: K, v: V)
    ensures Sum(rows[k := v], column) ==
            Sum(rows, column) + column(v) - (if k in rows then column(rows[k]) else 0)
  {
    SumSplit(rows[k := v], column, k);
    assert rows[k := v] - {k} == rows - {k};
    if k in rows {
      SumSplit(rows, column, k);
    } else {
      assert rows - {k} == rows;
    }
  }

  /** With a non-negative column, no row exceeds the sum. */
  lemma {:induction false} SumBoundsRow<K, V>(rows: map<K, V>, column: V -> int, k: K)
    requires k in rows
    requires forall r :: r in rows ==> 0 <= column(rows[r])
    ensures column(rows[k]) <= Sum(rows, column)
  {
    SumSplit(rows, column, k);
    SumNonNegative(rows - {k}, column);
  }

  lemma {:induction false} SumNonNegative<K, V>(rows: map<K, V>, column: V -> int)
    requires forall r :: r in rows ==> 0 <= column(rows[r])
    ensures 0 <= Sum(rows, column)
    decreases |rows|
  {
    if rows != map[] {
      var k :| k in rows && Sum(rows, column) == column(rows[k]) + Sum(rows - {k}, column);
      SumNonNegative(rows - {k}, column);
    }
  }

  /** A column that is zero in every row sums to zero. */
  lemma {:induction false} SumOfNone<K, V>(rows: map<K, V>, column: V -> int)
    requires forall k :: k in rows ==> column(rows[k]) == 0
    ensures Sum(rows, column) == 0
    decreases |rows|
  {
    if rows != map[] {
      var k :| k in rows && Sum(rows, column) == column(rows[k]) + Sum(rows - {k}, column);
      SumOfNone(rows - {k}, column);
    }
  }

  /** A column that is pointwise smaller has the smaller sum. */
  lemma {:induction false} SumMonotone<K, V>(rows: map<K, V>, low: V -> int, high: V -> int)
    requires forall k :: k in rows ==> low(rows[k]) <= high(rows[k])
    ensures Sum(rows, low) <= Sum(rows, high)
    decreases |rows|
  {
    if rows != map[] {
      var k :| k in rows && Sum(rows, low) == low(rows[k]) + Sum(rows - {k}, low);
      SumMonotone(rows - {k}, low, high);
      SumSplit(rows, high, k);
    }
  }

  /** Seconds until a later instant, rounded up, and never less than one. */
  function SecondsUntil(instant: int, now: int): int {
    Max(1, (instant - now + 999) / 1_000)
  }

  /** Waiting that many seconds reaches the instant, at most a second late, and passes it unless the
      instant is a whole number of seconds away. */
  lemma SecondsUntilReaches(instant: int, now: int)
    ensures instant <= now + SecondsUntil(instant, now) * 1_000
    ensures now < instant ==> now + SecondsUntil(instant, now) * 1_000 < instant + 1_000
    ensures now <= instant ==>
              (instant < now + SecondsUntil(instant, now) * 1_000 <==> instant == now || (instant - now) % 1_000 != 0)
  {
  }

  /** A subset has at most as many members. */
  lemma {:induction false} SubsetCount<T>(small: set<T>, large: set<T>)
    requires small <= large
    ensures |small| <= |large|
    decreases small
  {
    if small != {} {
      var x :| x in small;
      SubsetCount(small - {x}, large - {x});
    }
  }

  /** A set whose members map one-to-one into another set is no larger than it. */
  lemma {:induction false} InjectionCount<A(!new), B>(source: set<A>, target: set<B>, image: A -> B)
    requires forall a :: a in source ==> image(a) in target
    requires forall a, b :: a in source && b in source && image(a) == image(b) ==> a == b
    ensures |source| <= |target|
    decreases source
  {
    if source != {} {
      var a :| a in source;
      InjectionCount(source - {a}, target - {image(a)}, image);
    }
  }
}
