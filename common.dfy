/** Small value-level building blocks shared by every stage of the pipeline:
    error wrappers, the list operations pandas and numpy perform on columns,
    Python's string order (which `np.unique` sorts by), period splitting and
    POSIX path joining. */
module Common {

  datatype Option<+T> = None | Some(value: T)

  /** A Python call that either returns a value or raises. */
  datatype Result<+T> = Ok(value: T) | Err(error: string)

  /** Boolean indexing `xs[mask]`: the elements satisfying `p`, in their order. */
  function Filter<T>(s: seq<T>, p: T -> bool): (r: seq<T>)
    ensures |r| <= |s|
    ensures forall i :: 0 <= i < |r| ==> r[i] in s && p(r[i])
    ensures forall i :: 0 <= i < |s| && p(s[i]) ==> s[i] in r
  {
    if s == [] then [] else (if p(s[0]) then [s[0]] else []) + Filter(s[1..], p)
  }

  lemma {:induction false} FilterAppend<T>(a: seq<T>, b: seq<T>, p: T -> bool)
    ensures Filter(a + b, p) == Filter(a, p) + Filter(b, p)
  {
    if a == [] {
      assert a + b == b;
    } else {
      assert (a + b)[1..] == a[1..] + b;
      FilterAppend(a[1..], b, p);
    }
  }

  predicate NoDup<T(==)>(s: seq<T>) {
    forall i, j :: 0 <= i < j < |s| ==> s[i] != s[j]
  }

  /** `drop_duplicates()`: the first occurrence of every element, in order. */
  function Dedup<T(==)>(s: seq<T>): (r: seq<T>)
    ensures NoDup(r)
    ensures forall i :: 0 <= i < |r| ==> r[i] in s
    ensures forall i :: 0 <= i < |s| ==> s[i] in r
  {
    if s == [] then []
    else
      var d := Dedup(s[..|s| - 1]);
      if s[|s| - 1] in d then d else d + [s[|s| - 1]]
  }

  /** One more element is kept, at the end, exactly when it has not occurred
      before. */
  lemma DedupSnoc<T>(s: seq<T>, x: T)
    ensures Dedup(s + [x]) == if x in s then Dedup(s) else Dedup(s) + [x]
  {
    assert (s + [x])[..|s|] == s;
  }

  /** Later elements never move the earlier ones: what is kept of a prefix
      stays in front, in its order. */
  lemma {:induction false} DedupPrefix<T>(a: seq<T>, b: seq<T>)
    ensures Dedup(a) <= Dedup(a + b)
  {
    if b == [] {
      assert a + b == a;
    } else {
      var c, x := b[..|b| - 1], b[|b| - 1];
      assert a + b == (a + c) + [x];
      DedupPrefix(a, c);
      DedupSnoc(a + c, x);
    }
  }

  /** Dropping duplicates never changes which value is the first to satisfy
      a condition, so `.iloc[0]` after `drop_duplicates()` reads the row it
      would have read before. */
  lemma DedupFirstWhere<T>(s: seq<T>, p: T -> bool)
    ensures FirstWhere(Dedup(s), p).Some? <==> FirstWhere(s, p).Some?
    ensures FirstWhere(s, p).Some? ==> Dedup(s)[FirstWhere(Dedup(s), p).value] == s[FirstWhere(s, p).value]
  {
    var d := Dedup(s);
    match FirstWhere(s, p)
    case None =>
      forall j | 0 <= j < |d| ensures !p(d[j]) {
        var k :| 0 <= k < |s| && s[k] == d[j];
      }
    case Some(k) =>
      var a, x := s[..k], s[k];
      assert x !in a;
      assert s == (a + [x]) + s[k + 1..];
      DedupSnoc(a, x);
      DedupPrefix(a + [x], s[k + 1..]);
      var da := Dedup(a);
      assert d[|da|] == x;
      forall j | 0 <= j < |da| ensures !p(d[j]) {
        assert d[j] == da[j];
        var i :| 0 <= i < |a| && a[i] == da[j];
      }
  }

  // ---------------------------------------------------------------------------
  // Python's order on str (code point by code point) and np.unique

  predicate Less(a: string, b: string) {
    if a == [] then b != []
    else if b == [] then false
    else a[0] < b[0] || (a[0] == b[0] && Less(a[1..], b[1..]))
  }

  lemma {:induction false} LessIrreflexive(a: string)
    ensures !Less(a, a)
  {
    if a != [] { LessIrreflexive(a[1..]); }
  }

  lemma {:induction false} LessTransitive(a: string, b: string, c: string)
    requires Less(a, b) && Less(b, c)
    ensures Less(a, c)
  {
    if a != [] && b != [] && c != [] && a[0] == b[0] == c[0] {
      LessTransitive(a[1..], b[1..], c[1..]);
    }
  }

  lemma {:induction false} LessTotal(a: string, b: string)
    requires a != b
    ensures Less(a, b) || Less(b, a)
  {
    if a != [] && b != [] && a[0] == b[0] {
      assert a == [a[0]] + a[1..] && b == [b[0]] + b[1..];
      LessTotal(a[1..], b[1..]);
    }
  }

  predicate Sorted(s: seq<string>) {
    forall i, j :: 0 <= i < j < |s| ==> Less(s[i], s[j])
  }

  lemma SortedNoDup(s: seq<string>)
    requires Sorted(s)
    ensures NoDup(s)
  {
    forall i, j | 0 <= i < j < |s| ensures s[i] != s[j] {
      if s[i] == s[j] { LessIrreflexive(s[i]); }
    }
  }

  lemma SortedPrepend(x: string, s: seq<string>)
    requires Sorted(s)
    requires forall y :: y in s ==> Less(x, y)
    ensures Sorted([x] + s)
  {
    var t := [x] + s;
    forall i, j | 0 <= i < j < |t| ensures Less(t[i], t[j]) {
      if i > 0 { assert t[i] == s[i - 1] && t[j] == s[j - 1]; }
      else { assert t[j] == s[j - 1] && t[j] in s; }
    }
  }

  /** Inserts `x` into a strictly increasing list unless it is already there. */
  function Insert(x: string, s: seq<string>): (r: seq<string>)
    requires Sorted(s)
    ensures Sorted(r)
    ensures forall y :: y in r <==> y in s || y == x
  {
    if s == [] then [x]
    else if x == s[0] then s
    else if Less(x, s[0]) then
      assert forall y :: y in s ==> Less(x, y) by {
        forall y | y in s ensures Less(x, y) {
          var k :| 0 <= k < |s| && s[k] == y;
          if k > 0 { LessTransitive(x, s[0], y); }
        }
      }
      SortedPrepend(x, s);
      [x] + s
    else
      LessTotal(x, s[0]);
      var rest := Insert(x, s[1..]);
      assert forall y :: y in rest ==> Less(s[0], y) by {
        forall y | y in rest ensures Less(s[0], y) {
          if y != x {
            var k :| 1 <= k < |s| && s[k] == y;
          }
        }
      }
      SortedPrepend(s[0], rest);
      [s[0]] + rest
  }

  /** `np.unique`: the distinct elements, in increasing order. */
  function Unique(s: seq<string>): (r: seq<string>)
    ensures Sorted(r)
    ensures forall x :: x in r <==> x in s
  {
    if s == [] then [] else Insert(s[|s| - 1], Unique(s[..|s| - 1]))
  }

  /** `np.union1d(a, b)`: the distinct elements of either list, sorted. */
  function Union1d(a: seq<string>, b: seq<string>): (r: seq<string>)
    ensures Sorted(r)
    ensures forall x :: x in r <==> x in a || x in b
  {
    Unique(a + b)
  }

  /** `np.setdiff1d(a, b)`: the distinct elements of `a` not in `b`, sorted. */
  function SetDiff1d(a: seq<string>, b: seq<string>): (r: seq<string>)
    ensures Sorted(r)
    ensures forall x :: x in r <==> x in a && x !in b
  {
    FilterSorted(Unique(a), x => x !in b);
    Filter(Unique(a), x => x !in b)
  }

  lemma {:induction false} FilterSorted(s: seq<string>, p: string -> bool)
    requires Sorted(s)
    ensures Sorted(Filter(s, p))
  {
    if s != [] {
      FilterSorted(s[1..], p);
      var rest := Filter(s[1..], p);
      if p(s[0]) {
        forall y | y in rest ensures Less(s[0], y) {
          var k :| 1 <= k < |s| && s[k] == y;
        }
        SortedPrepend(s[0], rest);
      }
    }
  }

  lemma MemberOfNonEmpty<T>(s: seq<T>)
    requires s != []
    ensures s[0] in s
  {
  }

  /** A strictly increasing list is determined by its elements. */
  lemma {:induction false} SortedDeterminedByElements(a: seq<string>, b: seq<string>)
    requires Sorted(a) && Sorted(b)
    requires forall x :: x in a <==> x in b
    ensures a == b
  {
    if a == [] {
      if b != [] {
        MemberOfNonEmpty(b);
        assert false;
      }
    } else {
      assert a[0] in b;
      assert b[0] in a;
      if a[0] != b[0] {
        var i :| 0 <= i < |a| && a[i] == b[0];
        var j :| 0 <= j < |b| && b[j] == a[0];
        assert Less(a[0], b[0]);
        assert Less(b[0], a[0]);
        LessTransitive(a[0], b[0], a[0]);
        LessIrreflexive(a[0]);
      }
      forall x ensures x in a[1..] <==> x in b[1..] {
        if x in a[1..] {
          var i :| 1 <= i < |a| && a[i] == x;
          assert x != a[0] by { SortedNoDup(a); }
          assert x in b;
        }
        if x in b[1..] {
          var j :| 1 <= j < |b| && b[j] == x;
          assert x != b[0] by { SortedNoDup(b); }
          assert x in a;
        }
      }
      SortedDeterminedByElements(a[1..], b[1..]);
      assert a == [a[0]] + a[1..] && b == [b[0]] + b[1..];
    }
  }

  /** `x` is the smallest element of `s` in Python's string order. */
  predicate IsLeast(x: string, s: set<string>) {
    x in s && forall y :: y in s ==> x == y || Less(x, y)
  }

  lemma {:induction false} LeastExists(s: set<string>)
    requires s != {}
    ensures exists x :: IsLeast(x, s)
    decreases |s|
  {
    var a :| a in s;
    if s != {a} {
      var rest := s - {a};
      LeastExists(rest);
      var m :| IsLeast(m, rest);
      if Less(a, m) {
        forall y | y in s ensures a == y || Less(a, y) {
          if y != a && y != m { LessTransitive(a, m, y); }
        }
        assert IsLeast(a, s);
      } else {
        if a != m { LessTotal(a, m); }
        assert IsLeast(m, s);
      }
    } else {
      assert IsLeast(a, s);
    }
  }

  lemma LeastUnique(s: set<string>)
    ensures forall x, y :: IsLeast(x, s) && IsLeast(y, s) ==> x == y
  {
    forall x, y | IsLeast(x, s) && IsLeast(y, s) ensures x == y {
      if x != y {
        LessTransitive(x, y, x);
        LessIrreflexive(x);
      }
    }
  }

  /** The elements of a finite set of paths in increasing order, as
      `sorted(glob(...))` lists them. */
  function SortedSet(s: set<string>): (r: seq<string>)
    ensures Sorted(r)
    ensures forall x :: x in r <==> x in s
    ensures |r| == |s|
    decreases |s|
  {
    if s == {} then []
    else
      LeastExists(s);
      LeastUnique(s);
      var x :| IsLeast(x, s);
      var rest := SortedSet(s - {x});
      assert forall y :: y in rest ==> Less(x, y);
      SortedPrepend(x, rest);
      [x] + rest
  }

  // ---------------------------------------------------------------------------
  // Nested loops

  /** The iterations of `for x in xs: for y in ys:`, in loop order. */
  function Product<A, B>(xs: seq<A>, ys: seq<B>): (r: seq<(A, B)>)
    ensures |r| == |xs| * |ys|
  {
    if xs == [] then []
    else seq(|ys|, j requires 0 <= j < |ys| => (xs[0], ys[j])) + Product(xs[1..], ys)
  }

  /** Every pair of a loop value from each list is visited, and nothing else. */
  lemma {:induction false} ProductCovers<A, B>(xs: seq<A>, ys: seq<B>, x: A, y: B)
    ensures (x, y) in Product(xs, ys) <==> x in xs && y in ys
  {
    if xs != [] {
      ProductCovers(xs[1..], ys, x, y);
      var row := seq(|ys|, j requires 0 <= j < |ys| => (xs[0], ys[j]));
      assert Product(xs, ys) == row + Product(xs[1..], ys);
      if x == xs[0] && y in ys {
        var j :| 0 <= j < |ys| && ys[j] == y;
        assert row[j] == (x, y);
      }
      assert x in xs <==> x == xs[0] || x in xs[1..];
    }
  }

  /** Iteration `i * |ys| + j` is the pair `(xs[i], ys[j])`: the outer loop is
      the slower one. */
  lemma {:induction false} ProductIndex<A, B>(xs: seq<A>, ys: seq<B>, i: nat, j: nat)
    requires i < |xs| && j < |ys|
    ensures i * |ys| + j < |Product(xs, ys)|
    ensures Product(xs, ys)[i * |ys| + j] == (xs[i], ys[j])
  {
    if i > 0 {
      ProductIndex(xs[1..], ys, i - 1, j);
      assert i * |ys| + j == |ys| + ((i - 1) * |ys| + j);
    }
  }

  // ---------------------------------------------------------------------------
  // Strings

  predicate StartsWith(s: string, p: string) {
    |p| <= |s| && s[..|p|] == p
  }

  predicate EndsWith(s: string, p: string) {
    |p| <= |s| && s[|s| - |p|..] == p
  }

  /** Python's `sub in s` on str. */
  predicate Contains(s: string, sub: string) {
    StartsWith(s, sub) || (s != [] && Contains(s[1..], sub))
  }

  /** The first position of `c` in `s`, as `str.find` gives it. */
  function IndexOf(s: string, c: char): (r: Option<nat>)
    ensures r.Some? ==> r.value < |s| && s[r.value] == c && c !in s[..r.value]
    ensures r.None? ==> c !in s
  {
    if s == [] then None
    else if s[0] == c then Some(0)
    else match IndexOf(s[1..], c)
      case None => None
      case Some(i) => assert s[..i + 1] == [s[0]] + s[1..][..i]; Some(i + 1)
  }

  /** `start, end = str.split(period, '-')`: succeeds only when the period holds
      exactly one dash (any other count raises ValueError on unpacking). */
  function SplitPeriod(p: string): (r: Option<(string, string)>)
    ensures r.Some? ==> r.value.0 + "-" + r.value.1 == p
    ensures r.Some? ==> '-' !in r.value.0 && '-' !in r.value.1
  {
    match IndexOf(p, '-')
    case None => None
    case Some(i) =>
      if '-' in p[i + 1..] then None
      else
        assert p[..i] + "-" + p[i + 1..] == p by {
          assert p == p[..i] + [p[i]] + p[i + 1..];
        }
        Some((p[..i], p[i + 1..]))
  }

  lemma {:induction false} IndexOfAfter(x: string, c: char, y: string)
    requires c !in x
    ensures IndexOf(x + [c] + y, c) == Some(|x|)
  {
    if x != [] {
      assert (x + [c] + y)[1..] == x[1..] + [c] + y;
      IndexOfAfter(x[1..], c, y);
    }
  }

  /** Splitting a joined period gives back its two halves. */
  lemma SplitPeriodOfJoin(a: string, b: string)
    requires '-' !in a && '-' !in b
    ensures SplitPeriod(a + "-" + b) == Some((a, b))
  {
    var p := a + "-" + b;
    assert p == a + ['-'] + b;
    IndexOfAfter(a, '-', b);
    assert p[..|a|] == a;
    assert p[|a| + 1..] == b;
  }

  /** The period holds exactly one dash. */
  predicate OneDash(p: string) {
    exists k :: 0 <= k < |p| && p[k] == '-' && forall i :: 0 <= i < |p| && p[i] == '-' ==> i == k
  }

  /** Unpacking the split succeeds exactly when the period holds one dash;
      with none or with two or more, the unpacking raises. */
  lemma SplitPeriodOneDash(p: string)
    ensures SplitPeriod(p).Some? <==> OneDash(p)
  {
    if SplitPeriod(p).Some? {
      var a, b := SplitPeriod(p).value.0, SplitPeriod(p).value.1;
      assert p == a + "-" + b;
      assert p[|a|] == '-';
      forall i | 0 <= i < |p| && i != |a| ensures p[i] != '-' {
        if i < |a| { assert p[i] == a[i]; } else { assert p[i] == b[i - |a| - 1]; }
      }
    }
    if OneDash(p) {
      var k :| 0 <= k < |p| && p[k] == '-' && forall i :: 0 <= i < |p| && p[i] == '-' ==> i == k;
      assert p[k] in p;
      var v := IndexOf(p, '-').value;
      assert v == k;
      var rest := p[k + 1..];
      forall m | 0 <= m < |rest| ensures rest[m] != '-' {
        assert rest[m] == p[k + 1 + m];
      }
    }
  }

  /** `os.path.join(a, b)` on POSIX: an absolute second part replaces the
      first; otherwise a single separator is put between them. */
  function PathJoin(a: string, b: string): string {
    if |b| > 0 && b[0] == '/' then b
    else if a == [] || a[|a| - 1] == '/' then a + b
    else a + "/" + b
  }

  /** `os.path.join(base, parts[0], parts[1], ...)`. */
  function JoinAll(base: string, parts: seq<string>): string
    decreases |parts|
  {
    if parts == [] then base else JoinAll(PathJoin(base, parts[0]), parts[1..])
  }

  /** Joining a relative name that holds no separator onto a directory ends
      with that name after a separator (or is the name alone). */
  lemma PathJoinName(dir: string, name: string)
    requires name != [] && '/' !in name
    ensures PathJoin(dir, name) == name || EndsWith(PathJoin(dir, name), "/" + name)
  {
    assert name[0] in name;
    var p := PathJoin(dir, name);
    if dir != [] && dir[|dir| - 1] == '/' {
      assert p == dir[..|dir| - 1] + ("/" + name);
    } else if dir != [] {
      assert p == dir + ("/" + name);
    }
  }

  // ---------------------------------------------------------------------------
  // Decimal numerals

  function DigitChar(d: nat): char
    requires d < 10
  {
    (48 + d) as char
  }

  predicate IsDigit(c: char) {
    '0' <= c <= '9'
  }

  /** `str(n)` for a non-negative integer. */
  function NatToString(n: nat): (r: string)
    ensures |r| > 0
    ensures forall c :: c in r ==> IsDigit(c)
  {
    if n < 10 then [DigitChar(n)] else NatToString(n / 10) + [DigitChar(n % 10)]
  }

  /** `int(s)` for a string of decimal digits. */
  function ParseNat(s: string): nat
    requires forall c :: c in s ==> IsDigit(c)
  {
    if s == [] then 0
    else
      assert IsDigit(s[|s| - 1]) by { assert s[|s| - 1] in s; }
      ParseNat(s[..|s| - 1]) * 10 + ((s[|s| - 1] as int) - ('0' as int))
  }

  lemma {:induction false} ParseNatToString(n: nat)
    ensures ParseNat(NatToString(n)) == n
  {
    if n >= 10 {
      var s := NatToString(n);
      assert s[..|s| - 1] == NatToString(n / 10);
      ParseNatToString(n / 10);
    }
  }

  /** Rendering a count is injective: distinct counts give distinct text. */
  lemma NatToStringInjective(m: nat, n: nat)
    requires NatToString(m) == NatToString(n)
    ensures m == n
  {
    ParseNatToString(m);
    ParseNatToString(n);
  }

  // ---------------------------------------------------------------------------
  // Positional row access

  /** `df.iloc[i]`: 0-based, negative positions count from the end, anything
      else raises IndexError. */
  function Iloc<T>(s: seq<T>, i: int): (r: Result<T>)
    ensures r.Ok? <==> -|s| <= i < |s|
  {
    if 0 <= i < |s| then Ok(s[i])
    else if -|s| <= i < 0 then Ok(s[|s| + i])
    else Err("IndexError: single positional indexer is out-of-bounds")
  }

  /** The position of the first element satisfying `p`: what
      `df[condition].values[0]` reads. */
  function FirstWhere<T>(s: seq<T>, p: T -> bool): (r: Option<nat>)
    ensures r.Some? ==> r.value < |s| && p(s[r.value]) && forall j :: 0 <= j < r.value ==> !p(s[j])
    ensures r.None? ==> forall j :: 0 <= j < |s| ==> !p(s[j])
  {
    if s == [] then None
    else if p(s[0]) then Some(0)
    else
      var r := FirstWhere(s[1..], p);
      if r.Some? then
        assert forall j :: 1 <= j <= r.value ==> s[j] == s[1..][j - 1];
        Some(r.value + 1)
      else
        assert forall j :: 1 <= j < |s| ==> s[j] == s[1..][j - 1];
        None
  }

  /** Masking before searching finds the same element as searching for both
      conditions at once. */
  lemma {:induction false} FilterFirstWhere<T>(s: seq<T>, q: T -> bool, p: T -> bool, qp: T -> bool)
    requires forall x :: qp(x) == (q(x) && p(x))
    ensures FirstWhere(Filter(s, q), p).Some? <==> FirstWhere(s, qp).Some?
    ensures FirstWhere(s, qp).Some? ==> Filter(s, q)[FirstWhere(Filter(s, q), p).value] == s[FirstWhere(s, qp).value]
  {
    if s != [] {
      FilterFirstWhere(s[1..], q, p, qp);
      var f := Filter(s[1..], q);
      if q(s[0]) {
        assert Filter(s, q) == [s[0]] + f;
        assert ([s[0]] + f)[1..] == f;
      } else {
        assert Filter(s, q) == f;
      }
    }
  }
}
