/** get_categories: the distinct non-empty categories of the caller's
    products, in ascending order (`sorted(set(...))`). */
module Categories {
  import opened Common
  import opened Tables
  import opened Entities

  /** Python's `<` on `str`: code point by code point, a proper prefix first. */
  predicate Below(a: string, b: string) {
    if a == [] then b != []
    else b != [] && (a[0] < b[0] || (a[0] == b[0] && Below(a[1..], b[1..])))
  }

  lemma {:induction false} BelowIrreflexive(a: string)
    ensures !Below(a, a)
  {
    if a != [] {
      BelowIrreflexive(a[1..]);
    }
  }

  lemma {:induction false} BelowTransitive(a: string, b: string, c: string)
    requires Below(a, b) && Below(b, c)
    ensures Below(a, c)
  {
    if a != [] && a[0] == b[0] && b[0] == c[0] {
      BelowTransitive(a[1..], b[1..], c[1..]);
    }
  }

  /** Any two different strings are ordered one way or the other. */
  lemma {:induction false} BelowTotal(a: string, b: string)
    ensures a == b || Below(a, b) || Below(b, a)
  {
    if a != [] && b != [] && a[0] == b[0] {
      BelowTotal(a[1..], b[1..]);
      if a[1..] == b[1..] {
        assert a == [a[0]] + a[1..] && b == [b[0]] + b[1..];
      }
    }
  }

  /** Sorted with no repeats. */
  predicate StrictlyAscending(s: seq<string>) {
    forall i, j :: 0 <= i < j < |s| ==> Below(s[i], s[j])
  }

  /** Adds `c` to a strictly ascending list, unless it is already there. */
  function Insert(s: seq<string>, c: string): (r: seq<string>)
    requires StrictlyAscending(s)
    ensures StrictlyAscending(r)
    ensures forall x :: x in r <==> x in s || x == c
  {
    if s == [] then [c]
    else if c == s[0] then s
    else if Below(c, s[0]) then
      assert StrictlyAscending([c] + s) by {
        forall j | 0 <= j < |s| ensures Below(c, s[j]) {
          if j > 0 {
            BelowTransitive(c, s[0], s[j]);
          }
        }
      }
      [c] + s
    else
      var rest := Insert(s[1..], c);
      assert StrictlyAscending([s[0]] + rest) by {
        BelowTotal(c, s[0]);
        forall j | 0 <= j < |rest| ensures Below(s[0], rest[j]) {
          assert rest[j] in s[1..] || rest[j] == c;
          if rest[j] in s[1..] {
            var k :| 0 <= k < |s[1..]| && s[1..][k] == rest[j];
            assert s[k + 1] == rest[j];
          }
        }
      }
      [s[0]] + rest
  }

  /** The caller owns a product whose category is `c`, and `c` is truthy
      (neither missing nor the empty string). */
  predicate HasCategory(rows: seq<Row<Product>>, c: string) {
    c != "" && exists i :: 0 <= i < |rows| && rows[i].data.category == Some(c)
  }

  /** The categories of `rows`, deduplicated and sorted. */
  function DistinctCategories(rows: seq<Row<Product>>): (r: seq<string>)
    ensures StrictlyAscending(r)
    ensures forall c :: c in r <==> HasCategory(rows, c)
  {
    if rows == [] then []
    else
      var rest := DistinctCategories(rows[1..]);
      assert forall c :: HasCategory(rows, c) <==>
          (c != "" && rows[0].data.category == Some(c)) || HasCategory(rows[1..], c) by {
        forall c ensures HasCategory(rows, c) <==>
            (c != "" && rows[0].data.category == Some(c)) || HasCategory(rows[1..], c) {
          if HasCategory(rows[1..], c) {
            var i :| 0 <= i < |rows[1..]| && rows[1..][i].data.category == Some(c);
            assert rows[i + 1] == rows[1..][i];
          }
          if HasCategory(rows, c) && rows[0].data.category != Some(c) {
            var i :| 0 <= i < |rows| && rows[i].data.category == Some(c);
            assert rows[1..][i - 1] == rows[i];
          }
        }
      }
      if rows[0].data.category.Some? && rows[0].data.category.value != "" then
        Insert(rest, rows[0].data.category.value)
      else rest
  }

  /** There is one strictly ascending list of a given set of strings: so
      whatever order the rows come in, the endpoint's `sorted(set(...))` is
      the list computed here. */
  lemma {:induction false} AscendingIsUnique(a: seq<string>, b: seq<string>)
    requires StrictlyAscending(a) && StrictlyAscending(b)
    requires forall x :: x in a <==> x in b
    ensures a == b
  {
    SameElementsSameEmptiness(a, b);
    if a != [] {
      if a[0] != b[0] {
        assert a[0] in b;
        assert b[0] in a;
        var k :| 0 <= k < |b| && b[k] == a[0];
        var m :| 0 <= m < |a| && a[m] == b[0];
        assert Below(b[0], a[0]);
        assert Below(a[0], b[0]);
        BelowTransitive(a[0], b[0], a[0]);
        BelowIrreflexive(a[0]);
      }
      forall x ensures x in a[1..] <==> x in b[1..] {
        if x in a[1..] {
          var i :| 0 <= i < |a[1..]| && a[1..][i] == x;
          assert Below(a[0], a[i + 1]);
          BelowIrreflexive(x);
          assert x in b;
        }
        if x in b[1..] {
          var i :| 0 <= i < |b[1..]| && b[1..][i] == x;
          assert Below(b[0], b[i + 1]);
          BelowIrreflexive(x);
          assert x in a;
        }
      }
      AscendingIsUnique(a[1..], b[1..]);
      assert a == [a[0]] + a[1..] && b == [b[0]] + b[1..];
    }
  }

  lemma SameElementsSameEmptiness(a: seq<string>, b: seq<string>)
    requires forall x :: x in a <==> x in b
    ensures a == [] <==> b == []
  {
    if a != [] {
      assert a[0] in b;
    }
    if b != [] {
      assert b[0] in a;
    }
  }

  /** The endpoint's answer is decided by the set of the caller's categories
      alone: two product tables whose rows show the same categories give the
      same list, whatever their order, count or other columns. */
  lemma CategoriesDependOnlyOnTheSet(rows1: seq<Row<Product>>, rows2: seq<Row<Product>>)
    requires forall c :: HasCategory(rows1, c) <==> HasCategory(rows2, c)
    ensures DistinctCategories(rows1) == DistinctCategories(rows2)
  {
    AscendingIsUnique(DistinctCategories(rows1), DistinctCategories(rows2));
  }
}
