/** The sidebar's choice of merchant and merchant ID, and the rows it
    selects. */
module Selection {
  import opened Dataset

  /** The sentinel put at the head of the merchant-ID list; choosing it means
      "every ID under the chosen trading name". */
  const AllMids: string := "All MIDs"

  /** The row mask: the trading name must match and, unless the sentinel is
      chosen, so must the merchant ID. */
  predicate Selected(r: Record, name: string, mid: string) {
    if mid == AllMids then r.tradingName == name
    else r.tradingName == name && r.merchantId == mid
  }

  /** `merchant_data`: the rows of the chosen merchant (and ID), in sheet order.
      No match gives the empty selection. */
  function MerchantData(rows: seq<Record>, name: string, mid: string): (sel: seq<Record>)
    ensures forall x :: x in sel ==> x.tradingName == name
    ensures mid != AllMids ==> forall x :: x in sel ==> x.merchantId == mid
    ensures forall x ::
      multiset(sel)[x] == if x.tradingName == name && (mid == AllMids || x.merchantId == mid) then multiset(rows)[x] else 0
  {
    var sel := Where(rows, r => Selected(r, name, mid));
    forall x | x in sel ensures Selected(x, name, mid) {
      WhereMembership(rows, r => Selected(r, name, mid), x);
    }
    sel
  }

  /** The selection keeps the sheet's row order: selecting from two parts of
      the sheet and concatenating is selecting from the whole. */
  lemma MerchantDataConcat(a: seq<Record>, b: seq<Record>, name: string, mid: string)
    ensures MerchantData(a + b, name, mid) == MerchantData(a, name, mid) + MerchantData(b, name, mid)
  {
    WhereConcat(a, b, r => Selected(r, name, mid));
  }

  /** Choosing one merchant ID selects, in order, exactly the rows of that ID
      among the rows that "All MIDs" selects. */
  lemma SpecificMidWithinAllMids(rows: seq<Record>, name: string, mid: string)
    ensures MerchantData(MerchantData(rows, name, AllMids), name, mid) == MerchantData(rows, name, mid)
  {
    WhereNested(rows, r => Selected(r, name, AllMids), r => Selected(r, name, mid));
  }

  /** "All MIDs" is the union of the per-ID selections: every row of the
      chosen name appears in the selection of its own ID exactly as often as in
      the "All MIDs" selection, and in no other ID's selection. */
  lemma AllMidsIsUnionOfIds(rows: seq<Record>, name: string, x: Record, mid: string)
    requires x.tradingName == name && x.merchantId != AllMids && mid != AllMids
    ensures multiset(MerchantData(rows, name, x.merchantId))[x] == multiset(MerchantData(rows, name, AllMids))[x]
    ensures mid != x.merchantId ==> x !in MerchantData(rows, name, mid)
  {
    assert x in MerchantData(rows, name, mid) <==> multiset(MerchantData(rows, name, mid))[x] > 0;
  }

  /** A trading name that no row carries selects nothing; it is not an error. */
  lemma NoMatchIsEmpty(rows: seq<Record>, name: string, mid: string)
    requires forall i :: 0 <= i < |rows| ==> rows[i].tradingName != name
    ensures MerchantData(rows, name, mid) == []
  {
    WhereNone(rows, r => Selected(r, name, mid));
  }

  /** The trading names in sheet order. */
  function TradingNames(rows: seq<Record>): (names: seq<string>)
    ensures |names| == |rows|
    ensures forall i :: 0 <= i < |rows| ==> names[i] == rows[i].tradingName
  {
    seq(|rows|, i requires 0 <= i < |rows| => rows[i].tradingName)
  }

  /** The merchant IDs in sheet order. */
  function MerchantIds(rows: seq<Record>): (ids: seq<string>)
    ensures |ids| == |rows|
    ensures forall i :: 0 <= i < |rows| ==> ids[i] == rows[i].merchantId
  {
    seq(|rows|, i requires 0 <= i < |rows| => rows[i].merchantId)
  }

  /** The options of the merchant box: each trading name once, in order of
      first appearance; the first row's name is the default choice. */
  function MerchantOptions(rows: seq<Record>): (opts: seq<string>)
    ensures forall n :: n in opts <==> exists i :: 0 <= i < |rows| && rows[i].tradingName == n
    ensures forall i, j :: 0 <= i < j < |opts| ==> opts[i] != opts[j]
    ensures rows != [] ==> opts != [] && opts[0] == rows[0].tradingName
    ensures forall i, j :: 0 <= i < j < |opts| ==> FirstBefore(TradingNames(rows), opts[i], opts[j])
  {
    var names := TradingNames(rows);
    assert forall n :: n in names <==> exists i :: 0 <= i < |rows| && rows[i].tradingName == n by {
      forall n | n in names ensures exists i :: 0 <= i < |rows| && rows[i].tradingName == n {
        var i :| 0 <= i < |names| && names[i] == n;
      }
    }
    DistinctFirstAppearance(names);
    Distinct(names)
  }

  /** The options of the merchant-ID box: the sentinel first, then each ID
      used under the chosen trading name once, in order of first appearance
      among that name's rows. */
  function MidOptions(rows: seq<Record>, name: string): (opts: seq<string>)
    ensures |opts| >= 1 && opts[0] == AllMids
    ensures forall m :: m in opts[1..] <==> exists i :: 0 <= i < |rows| && rows[i].tradingName == name && rows[i].merchantId == m
    ensures forall i, j :: 1 <= i < j < |opts| ==> opts[i] != opts[j]
    ensures forall i, j :: 1 <= i < j < |opts| ==> FirstBefore(MerchantIds(MerchantData(rows, name, AllMids)), opts[i], opts[j])
  {
    var ids := MerchantIds(MerchantData(rows, name, AllMids));
    IdsUnderName(rows, name);
    DistinctFirstAppearance(ids);
    [AllMids] + Distinct(ids)
  }

  /** The merchant IDs of the "All MIDs" selection are exactly the IDs used
      under the chosen trading name. */
  lemma IdsUnderName(rows: seq<Record>, name: string)
    ensures forall m :: m in MerchantIds(MerchantData(rows, name, AllMids)) <==>
      exists i :: 0 <= i < |rows| && rows[i].tradingName == name && rows[i].merchantId == m
  {
    forall m | m in MerchantIds(MerchantData(rows, name, AllMids))
      ensures exists i :: 0 <= i < |rows| && rows[i].tradingName == name && rows[i].merchantId == m
    {
      IdOfSelectedRow(rows, name, m);
    }
    forall m | exists i :: 0 <= i < |rows| && rows[i].tradingName == name && rows[i].merchantId == m
      ensures m in MerchantIds(MerchantData(rows, name, AllMids))
    {
      var i :| 0 <= i < |rows| && rows[i].tradingName == name && rows[i].merchantId == m;
      SelectedRowHasId(rows, name, i);
    }
  }

  /** Every ID of the "All MIDs" selection is the ID of a row of that name. */
  lemma IdOfSelectedRow(rows: seq<Record>, name: string, m: string)
    requires m in MerchantIds(MerchantData(rows, name, AllMids))
    ensures exists i :: 0 <= i < |rows| && rows[i].tradingName == name && rows[i].merchantId == m
  {
    var sel := MerchantData(rows, name, AllMids);
    var ids := MerchantIds(sel);
    var k :| 0 <= k < |ids| && ids[k] == m;
    assert multiset(sel)[sel[k]] > 0;
    assert sel[k] in rows;
    var i :| 0 <= i < |rows| && rows[i] == sel[k];
  }

  /** The ID of every row of that name is among the selection's IDs. */
  lemma SelectedRowHasId(rows: seq<Record>, name: string, i: int)
    requires 0 <= i < |rows| && rows[i].tradingName == name
    ensures rows[i].merchantId in MerchantIds(MerchantData(rows, name, AllMids))
  {
    var sel := MerchantData(rows, name, AllMids);
    assert multiset(rows)[rows[i]] > 0;
    assert rows[i] in sel;
    var k :| 0 <= k < |sel| && sel[k] == rows[i];
    assert MerchantIds(sel)[k] == rows[i].merchantId;
  }
}
