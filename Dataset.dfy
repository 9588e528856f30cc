/** The uploaded transaction sheet: one record per row, and the two table
    operations the dashboard applies to it everywhere, boolean-mask selection
    and `unique()`. */
module Dataset {

  /** One row of the sheet: MERCHANT_ID, TRADING_NAME, CARD_TYPE and MTD_VOL.
      LAST_TRXN_DATE is loaded but never read by the computations, so it is
      not a field here. MTD_VOL is an exact amount. */
  datatype Record = Record(merchantId: string, tradingName: string, cardType: string, mtdVol: real)

  /** `rows[mask]`: the rows satisfying `p`, in their original order. */
  function Where(rows: seq<Record>, p: Record -> bool): (kept: seq<Record>)
    ensures |kept| <= |rows|
    ensures forall x :: multiset(kept)[x] == if p(x) then multiset(rows)[x] else 0
  {
    if rows == [] then []
    else
      assert rows == [rows[0]] + rows[1..];
      (if p(rows[0]) then [rows[0]] else []) + Where(rows[1..], p)
  }

  /** Every kept row satisfies the mask, and every row satisfying it is kept. */
  lemma WhereMembership(rows: seq<Record>, p: Record -> bool, x: Record)
    ensures x in Where(rows, p) <==> x in rows && p(x)
  {
    assert x in Where(rows, p) <==> multiset(Where(rows, p))[x] > 0;
    assert x in rows <==> multiset(rows)[x] > 0;
  }

  /** Selection preserves order: it distributes over concatenation. */
  lemma {:induction false} WhereConcat(a: seq<Record>, b: seq<Record>, p: Record -> bool)
    ensures Where(a + b, p) == Where(a, p) + Where(b, p)
  {
    if a == [] {
      assert a + b == b;
    } else {
      assert (a + b)[0] == a[0];
      assert (a + b)[1..] == a[1..] + b;
      WhereConcat(a[1..], b, p);
    }
  }

  /** Selecting with a finer mask after a coarser one is the same as selecting
      with the finer mask directly. */
  lemma {:induction false} WhereNested(rows: seq<Record>, coarse: Record -> bool, fine: Record -> bool)
    requires forall x :: fine(x) ==> coarse(x)
    ensures Where(Where(rows, coarse), fine) == Where(rows, fine)
  {
    if rows != [] {
      var head := if coarse(rows[0]) then [rows[0]] else [];
      var rest := Where(rows[1..], coarse);
      assert Where(rows, coarse) == head + rest;
      WhereConcat(head, rest, fine);
      WhereNested(rows[1..], coarse, fine);
      assert Where(head, fine) == if fine(rows[0]) then [rows[0]] else [] by {
        if coarse(rows[0]) {
          assert head[1..] == [];
        }
      }
    }
  }

  /** A mask that no row satisfies selects nothing. */
  lemma {:induction false} WhereNone(rows: seq<Record>, p: Record -> bool)
    requires forall i :: 0 <= i < |rows| ==> !p(rows[i])
    ensures Where(rows, p) == []
  {
    if rows != [] {
      WhereNone(rows[1..], p);
    }
  }

  /** `Series.unique()`: the distinct values of `s`, each once, in order of
      first appearance. */
  function Distinct(s: seq<string>): (d: seq<string>)
    ensures forall x :: x in d <==> x in s
    ensures forall i, j :: 0 <= i < j < |d| ==> d[i] != d[j]
    ensures s != [] ==> d != [] && d[0] == s[0]
  {
    if s == [] then []
    else
      var d := Distinct(s[..|s| - 1]);
      var x := s[|s| - 1];
      assert s == s[..|s| - 1] + [x];
      if x in d then d else d + [x]
  }

  /** In `s`, `a` occurs before the first occurrence of `b`. */
  predicate FirstBefore(s: seq<string>, a: string, b: string) {
    exists p :: 0 <= p < |s| && s[p] == a && b !in s[..p]
  }

  /** `Distinct` lists the values in order of first appearance: of any two
      values it lists, the earlier one occurs in `s` before the later one
      first does. */
  lemma {:induction false} DistinctFirstAppearance(s: seq<string>)
    ensures forall i, j :: 0 <= i < j < |Distinct(s)| ==> FirstBefore(s, Distinct(s)[i], Distinct(s)[j])
  {
    if s != [] {
      var s' := s[..|s| - 1];
      var d' := Distinct(s');
      var x := s[|s| - 1];
      DistinctFirstAppearance(s');
      forall i, j | 0 <= i < j < |Distinct(s)| ensures FirstBefore(s, Distinct(s)[i], Distinct(s)[j]) {
        var d := Distinct(s);
        assert d[i] == d'[i];
        if j < |d'| {
          var p :| 0 <= p < |s'| && s'[p] == d'[i] && d'[j] !in s'[..p];
          assert s[..p] == s'[..p];
        } else {
          assert d'[i] in s';
          var p :| 0 <= p < |s'| && s'[p] == d'[i];
          assert s[..p] == s'[..p];
          assert x !in s'[..p];
        }
      }
    }
  }
}
