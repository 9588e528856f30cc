/** `groupby(key)['MTD_VOL'].sum()` and the three groupings the dashboard
    draws: by card network (bar chart), by routing without JCB and CUP (pie
    chart) and by raw card type (summary table). */
module Aggregation {
  import opened Dataset
  import opened Classifier

  /** The Super_Card_Type column of a row: the first network, in check order,
      whose name occurs in the row's CARD_TYPE. */
  function SuperCardType(r: Record): (n: Network)
    ensures !n.Other? ==> Contains(r.cardType, n.Label())
    ensures forall m: Network :: !m.Other? && m.Rank() < n.Rank() ==> !Contains(r.cardType, m.Label())
  {
    ClassifyCardType(r.cardType)
  }

  /** The Transaction_Type column of a row: ON US and Other for exact labels,
      INTL for the other labels containing "INT", OFF US for the rest. */
  function TransactionType(r: Record): (t: Routing)
    ensures t == OnUs <==> IsOnUsLabel(r.cardType)
    ensures t == Intl <==> !IsOnUsLabel(r.cardType) && Contains(r.cardType, "INT")
    ensures t == Routing.Other <==> IsJcbOrCup(r.cardType)
  {
    ClassifyTransaction(r.cardType)
  }

  /** The CARD_TYPE column of a row. */
  function CardType(r: Record): string {
    r.cardType
  }

  /** Total MTD_VOL of the rows. */
  function TotalVolume(rows: seq<Record>): real {
    if rows == [] then 0.0 else rows[0].mtdVol + TotalVolume(rows[1..])
  }

  /** `rows[rows[key] == k]['MTD_VOL'].sum()`: the volume of the rows whose key
      is `k` (0 when there are none). */
  function SumWhere<K(==)>(rows: seq<Record>, key: Record -> K, k: K): real
  {
    if rows == [] then 0.0
    else (if key(rows[0]) == k then rows[0].mtdVol else 0.0) + SumWhere(rows[1..], key, k)
  }

  /** The key values present in the rows. */
  function KeysOf<K(==)>(rows: seq<Record>, key: Record -> K): set<K> {
    set r | r in rows :: key(r)
  }

  /** `m.get(k, 0)`. */
  function Lookup<K(==)>(m: map<K, real>, k: K): real {
    if k in m then m[k] else 0.0
  }

  /** `groupby(key)['MTD_VOL'].sum()`: one entry per distinct key value present
      in the rows (a map has no duplicate keys), holding the volume of the rows
      with that key. */
  function GroupSum<K(==)>(rows: seq<Record>, key: Record -> K): (m: map<K, real>)
    ensures m.Keys == KeysOf(rows, key)
    ensures forall k :: k in m ==> m[k] == SumWhere(rows, key, k)
  {
    if rows == [] then map[]
    else
      var m := GroupSum(rows[1..], key);
      var k := key(rows[0]);
      assert KeysOf(rows, key) == {k} + KeysOf(rows[1..], key) by {
        assert forall r :: r in rows <==> r == rows[0] || r in rows[1..];
      }
      if k in m then m[k := rows[0].mtdVol + m[k]]
      else
        SumWhereAbsent(rows[1..], key, k);
        m[k := rows[0].mtdVol]
  }

  /** A key that no row has sums to 0. */
  lemma {:induction false} SumWhereAbsent<K>(rows: seq<Record>, key: Record -> K, k: K)
    requires k !in KeysOf(rows, key)
    ensures SumWhere(rows, key, k) == 0.0
  {
    if rows != [] {
      assert KeysOf(rows[1..], key) <= KeysOf(rows, key) by {
        assert forall r :: r in rows[1..] ==> r in rows;
      }
      SumWhereAbsent(rows[1..], key, k);
    }
  }

  /** `SumWhereAbsent` as an implication, for any key. */
  lemma SumWhereAbsentImplies<K>(rows: seq<Record>, key: Record -> K, k: K)
    ensures k !in KeysOf(rows, key) ==> SumWhere(rows, key, k) == 0.0
  {
    if k !in KeysOf(rows, key) {
      SumWhereAbsent(rows, key, k);
    }
  }

  /** Reading a grouped sum with default 0 is the plain per-key sum, whether
      or not the key is present. */
  lemma LookupGroupSum<K>(rows: seq<Record>, key: Record -> K, k: K)
    ensures Lookup(GroupSum(rows, key), k) == SumWhere(rows, key, k)
  {
    if k !in GroupSum(rows, key) {
      SumWhereAbsent(rows, key, k);
    }
  }

  /** With non-negative volumes, the volume of one key lies between 0 and the
      total volume. */
  lemma {:induction false} SumWhereBounded<K>(rows: seq<Record>, key: Record -> K, k: K)
    requires forall i :: 0 <= i < |rows| ==> rows[i].mtdVol >= 0.0
    ensures 0.0 <= SumWhere(rows, key, k) <= TotalVolume(rows)
  {
    if rows != [] {
      SumWhereBounded(rows[1..], key, k);
    }
  }

  lemma {:induction false} SumWhereConcat<K>(a: seq<Record>, b: seq<Record>, key: Record -> K, k: K)
    ensures SumWhere(a + b, key, k) == SumWhere(a, key, k) + SumWhere(b, key, k)
  {
    if a == [] {
      assert a + b == b;
    } else {
      assert (a + b)[0] == a[0];
      assert (a + b)[1..] == a[1..] + b;
      SumWhereConcat(a[1..], b, key, k);
    }
  }

  /** Dropping rows of other keys does not change the volume of key `k`. */
  lemma {:induction false} SumWhereWhere<K>(rows: seq<Record>, p: Record -> bool, key: Record -> K, k: K)
    requires forall r :: key(r) == k ==> p(r)
    ensures SumWhere(Where(rows, p), key, k) == SumWhere(rows, key, k)
  {
    if rows != [] {
      var rest := Where(rows[1..], p);
      SumWhereWhere(rows[1..], p, key, k);
      if p(rows[0]) {
        assert Where(rows, p) == [rows[0]] + rest;
        assert ([rows[0]] + rest)[1..] == rest;
      } else {
        assert Where(rows, p) == rest;
      }
    }
  }

  /** Per-key sums do not depend on row order. */
  lemma {:induction false} SumWherePermutation<K>(a: seq<Record>, b: seq<Record>, key: Record -> K, k: K)
    requires multiset(a) == multiset(b)
    ensures SumWhere(a, key, k) == SumWhere(b, key, k)
    decreases |a|
  {
    if a != [] {
      assert a[0] in multiset(b);
      var j :| 0 <= j < |b| && b[j] == a[0];
      var rest := b[..j] + b[j + 1..];
      RemoveMatchingHead(a, b, j);
      SumWherePermutation(a[1..], rest, key, k);
      SumWhereRemove(b, j, key, k);
    }
  }

  /** Removing from `b` the element that `a` starts with leaves the same
      multiset as dropping the head of `a`. */
  lemma RemoveMatchingHead(a: seq<Record>, b: seq<Record>, j: int)
    requires multiset(a) == multiset(b) && a != [] && 0 <= j < |b| && b[j] == a[0]
    ensures multiset(a[1..]) == multiset(b[..j] + b[j + 1..])
  {
    assert b == b[..j] + [b[j]] + b[j + 1..];
    assert a == [a[0]] + a[1..];
    assert multiset(a[1..]) == multiset(a) - multiset{a[0]};
    assert multiset(b[..j] + b[j + 1..]) == multiset(b) - multiset{b[j]};
  }

  /** The volume of key `k` is the contribution of any one row plus the
      volume of the others. */
  lemma SumWhereRemove<K>(b: seq<Record>, j: int, key: Record -> K, k: K)
    requires 0 <= j < |b|
    ensures SumWhere(b, key, k) == (if key(b[j]) == k then b[j].mtdVol else 0.0) + SumWhere(b[..j] + b[j + 1..], key, k)
  {
    var pre, x, post := b[..j], b[j], b[j + 1..];
    assert b == pre + [x] + post;
    SumWhereConcat(pre + [x], post, key, k);
    SumWhereConcat(pre, [x], key, k);
    assert SumWhere([x], key, k) == if key(x) == k then x.mtdVol else 0.0 by {
      assert [x][1..] == [];
    }
    SumWhereConcat(pre, post, key, k);
  }

  /** Grouped sums do not depend on row order. */
  lemma GroupSumPermutation<K>(a: seq<Record>, b: seq<Record>, key: Record -> K)
    requires multiset(a) == multiset(b)
    ensures GroupSum(a, key) == GroupSum(b, key)
  {
    assert forall r :: r in a <==> r in b by {
      assert forall r :: r in a <==> r in multiset(a);
      assert forall r :: r in b <==> r in multiset(b);
    }
    assert KeysOf(a, key) == KeysOf(b, key);
    forall k | k in GroupSum(a, key) ensures GroupSum(a, key)[k] == GroupSum(b, key)[k] {
      SumWherePermutation(a, b, key, k);
    }
  }

  /** The sum of the values of `m` at `keys`, taken in any order. */
  ghost function SumOver<K>(m: map<K, real>, keys: set<K>): real
    requires keys <= m.Keys
    decreases keys
  {
    if keys == {} then 0.0
    else
      var k :| k in keys;
      m[k] + SumOver(m, keys - {k})
  }

  /** The sum of all the values of a map. */
  ghost function MapTotal<K>(m: map<K, real>): real {
    SumOver(m, m.Keys)
  }

  /** `SumOver` can take any key first. */
  lemma {:induction false} SumOverRemove<K>(m: map<K, real>, keys: set<K>, k: K)
    requires keys <= m.Keys && k in keys
    ensures SumOver(m, keys) == m[k] + SumOver(m, keys - {k})
    decreases keys
  {
    var j :| j in keys && SumOver(m, keys) == m[j] + SumOver(m, keys - {j});
    if j != k {
      SumOverRemove(m, keys - {j}, k);
      SumOverRemove(m, keys - {k}, j);
      assert keys - {j} - {k} == keys - {k} - {j};
    }
  }

  /** `SumOver` reads only the values at `keys`. */
  lemma {:induction false} SumOverAgree<K>(m: map<K, real>, m': map<K, real>, keys: set<K>)
    requires keys <= m.Keys && keys <= m'.Keys
    requires forall j :: j in keys ==> m[j] == m'[j]
    ensures SumOver(m, keys) == SumOver(m', keys)
    decreases keys
  {
    if keys != {} {
      var j :| j in keys && SumOver(m, keys) == m[j] + SumOver(m, keys - {j});
      SumOverRemove(m', keys, j);
      SumOverAgree(m, m', keys - {j});
    }
  }

  /** The grouped values add up to the total volume of the rows. */
  lemma {:induction false} GroupSumTotal<K>(rows: seq<Record>, key: Record -> K)
    ensures MapTotal(GroupSum(rows, key)) == TotalVolume(rows)
  {
    if rows != [] {
      GroupSumTotal(rows[1..], key);
      var m := GroupSum(rows[1..], key);
      var k := key(rows[0]);
      var m' := GroupSum(rows, key);
      SumOverRemove(m', m'.Keys, k);
      if k in m {
        assert m'.Keys == m.Keys;
        SumOverRemove(m, m.Keys, k);
        SumOverAgree(m, m', m.Keys - {k});
      } else {
        assert m'.Keys - {k} == m.Keys;
        SumOverAgree(m, m', m.Keys);
      }
    }
  }

  /** The bar chart: volume per card network. */
  function VolumeByNetwork(rows: seq<Record>): (m: map<Network, real>)
    ensures forall n :: n in m <==> exists r :: r in rows && ClassifyCardType(r.cardType) == n
    ensures forall n :: n in m ==> m[n] == SumWhere(rows, SuperCardType, n)
  {
    GroupSum(rows, SuperCardType)
  }

  /** The pie chart's row mask `~CARD_TYPE.isin(['JCB', 'CUP'])`. */
  predicate InPie(r: Record) {
    !IsJcbOrCup(r.cardType)
  }

  /** The pie chart's rows: those whose CARD_TYPE is not exactly JCB or CUP. */
  function PieRows(rows: seq<Record>): (kept: seq<Record>)
    ensures forall x :: multiset(kept)[x] == if IsJcbOrCup(x.cardType) then 0 else multiset(rows)[x]
  {
    Where(rows, InPie)
  }

  /** The pie chart: volume per routing category, JCB and CUP rows excluded. */
  function VolumeByRouting(rows: seq<Record>): (m: map<Routing, real>)
    ensures forall t :: t in m <==> exists r :: r in rows && !IsJcbOrCup(r.cardType) && ClassifyTransaction(r.cardType) == t
    ensures forall t :: t in m ==> m[t] == SumWhere(PieRows(rows), TransactionType, t)
  {
    var kept := PieRows(rows);
    forall r ensures r in kept <==> r in rows && !IsJcbOrCup(r.cardType) {
      WhereMembership(rows, InPie, r);
    }
    GroupSum(kept, TransactionType)
  }

  /** The summary table: volume per raw card type. */
  function VolumeByCardType(rows: seq<Record>): (m: map<string, real>)
    ensures forall c :: c in m <==> exists r :: r in rows && r.cardType == c
    ensures forall c :: c in m ==> m[c] == SumWhere(rows, CardType, c)
  {
    GroupSum(rows, CardType)
  }

  /** No routing slice is ever `Other`: only exact "JCB" and "CUP" are routed
      `Other`, and those rows are dropped before grouping. */
  lemma RoutingHasNoOtherSlice(rows: seq<Record>)
    ensures Routing.Other !in VolumeByRouting(rows)
  {
  }

  lemma PieRowsDropJcbCup(a: seq<Record>, x: Record, b: seq<Record>)
    requires IsJcbOrCup(x.cardType)
    ensures PieRows(a + [x] + b) == PieRows(a + b)
  {
    assert Where([x], InPie) == [] by {
      assert [x][1..] == [];
    }
    WhereConcat(a, [x], InPie);
    var left := Where(a + [x], InPie);
    assert left == Where(a, InPie);
    WhereConcat(a + [x], b, InPie);
    WhereConcat(a, b, InPie);
    assert Where(a + [x] + b, InPie) == Where(a + b, InPie);
  }

  /** A JCB or CUP row, wherever it stands, changes nothing in the pie chart. */
  lemma RoutingIgnoresJcbCup(a: seq<Record>, x: Record, b: seq<Record>)
    requires IsJcbOrCup(x.cardType)
    ensures VolumeByRouting(a + [x] + b) == VolumeByRouting(a + b)
  {
    PieRowsDropJcbCup(a, x, b);
  }

  /** ... while the same row still counts under its own network in the bar
      chart: "JCB" under JCB, "CUP" under CUP. */
  lemma NetworkCountsJcbCup(a: seq<Record>, x: Record, b: seq<Record>)
    requires IsJcbOrCup(x.cardType)
    ensures SuperCardType(x) == (if x.cardType == "JCB" then JCB else CUP)
    ensures SuperCardType(x) in VolumeByNetwork(a + [x] + b)
    ensures VolumeByNetwork(a + [x] + b)[SuperCardType(x)]
         == Lookup(VolumeByNetwork(a + b), SuperCardType(x)) + x.mtdVol
  {
    assert ClassifyCardType("JCB") == JCB by {
      NotContainsMissingChar("JCB", "VC", 0);
      NotContainsMissingChar("JCB", "MC", 0);
    }
    assert ClassifyCardType("CUP") == CUP by {
      NotContainsMissingChar("CUP", "VC", 0);
      NotContainsMissingChar("CUP", "MC", 0);
      NotContainsMissingChar("CUP", "JCB", 0);
    }
    var n := SuperCardType(x);
    assert x in a + [x] + b;
    LookupGroupSum(a + b, SuperCardType, n);
    SumWhereConcat(a + [x], b, SuperCardType, n);
    SumWhereConcat(a, [x], SuperCardType, n);
    SumWhereConcat(a, b, SuperCardType, n);
  }

  /** The volume of key `k` over two rows. */
  lemma SumWhereTwo<K>(r0: Record, r1: Record, key: Record -> K, k: K)
    ensures SumWhere([r0, r1], key, k) == (if key(r0) == k then r0.mtdVol else 0.0) + (if key(r1) == k then r1.mtdVol else 0.0)
  {
    assert [r0, r1][1..] == [r1] && [r1][1..] == [];
    assert SumWhere([r1], key, k) == (if key(r1) == k then r1.mtdVol else 0.0) + SumWhere([], key, k);
  }

  /** Two rows that both pass the pie mask are both kept. */
  lemma PieRowsKeepsTwo(r0: Record, r1: Record)
    requires InPie(r0) && InPie(r1)
    ensures PieRows([r0, r1]) == [r0, r1]
  {
    assert [r0, r1][1..] == [r1] && [r1][1..] == [];
  }

  /** Two rows of distinct networks: the bar chart has one entry per row. */
  lemma TwoRowNetworkVolumes(r0: Record, r1: Record)
    requires SuperCardType(r0) != SuperCardType(r1)
    ensures VolumeByNetwork([r0, r1]) == map[SuperCardType(r0) := r0.mtdVol, SuperCardType(r1) := r1.mtdVol]
  {
    assert [r0, r1][1..] == [r1] && [r1][1..] == [];
    assert GroupSum([r1], SuperCardType) == map[SuperCardType(r1) := r1.mtdVol];
  }

  /** Two rows of distinct routings, both kept for the pie chart: the pie chart
      has one entry per row, and the volume of any other category is 0. */
  lemma TwoRowRoutingVolumes(r0: Record, r1: Record)
    requires TransactionType(r0) != TransactionType(r1)
    requires InPie(r0) && InPie(r1)
    ensures VolumeByRouting([r0, r1]) == map[TransactionType(r0) := r0.mtdVol, TransactionType(r1) := r1.mtdVol]
    ensures SumWhere([r0, r1], TransactionType, TransactionType(r0)) == r0.mtdVol
    ensures SumWhere([r0, r1], TransactionType, TransactionType(r1)) == r1.mtdVol
    ensures forall t :: t != TransactionType(r0) && t != TransactionType(r1) ==> SumWhere([r0, r1], TransactionType, t) == 0.0
  {
    var rows := [r0, r1];
    forall t ensures SumWhere(rows, TransactionType, t) == (if TransactionType(r0) == t then r0.mtdVol else 0.0) + (if TransactionType(r1) == t then r1.mtdVol else 0.0) {
      SumWhereTwo(r0, r1, TransactionType, t);
    }
    PieRowsKeepsTwo(r0, r1);
    assert rows[1..] == [r1] && [r1][1..] == [];
    assert GroupSum([r1], TransactionType) == map[TransactionType(r1) := r1.mtdVol];
  }

  /** The pie chart drops only the exact labels "JCB" and "CUP": a JCB
      international row stays in it, in the INTL slice, although it counts
      under JCB in the bar chart. */
  lemma PieKeepsJcbInternational(x: Record)
    requires x.cardType == "JCB INT"
    ensures InPie(x) && TransactionType(x) == Intl && SuperCardType(x) == JCB
  {
    ClassifyJcbIntLabel();
  }
}
