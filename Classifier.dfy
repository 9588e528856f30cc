/** The two per-row classifications of a raw CARD_TYPE label: its card
    network (the Super_Card_Type column) and its routing (the
    Transaction_Type column). Both are total: every label, including the
    empty one, gets exactly one category of each kind. */
module Classifier {

  /** `prefix` is a prefix of `s`. */
  predicate StartsWith(s: string, prefix: string) {
    |prefix| <= |s| && s[..|prefix|] == prefix
  }

  /** `sub in s` on strings: `sub` occurs somewhere in `s` as a contiguous
      substring (the empty string occurs in every string). */
  predicate Contains(s: string, sub: string)
    decreases |s|
  {
    StartsWith(s, sub) || (|s| > 0 && Contains(s[1..], sub))
  }

  /** `sub` occurs in `s` starting at position `i`. */
  ghost predicate OccursAt(s: string, sub: string, i: int) {
    0 <= i && i + |sub| <= |s| && s[i..i + |sub|] == sub
  }

  /** `Contains` is exactly substring occurrence at some position. */
  lemma {:induction false} ContainsIffOccurs(s: string, sub: string)
    ensures Contains(s, sub) <==> exists i :: OccursAt(s, sub, i)
    decreases |s|
  {
    if StartsWith(s, sub) {
      assert OccursAt(s, sub, 0);
    } else if |s| == 0 {
      assert |sub| > 0 by {
        assert |sub| == 0 ==> StartsWith(s, sub);
      }
    } else {
      ContainsIffOccurs(s[1..], sub);
      if Contains(s[1..], sub) {
        var j :| OccursAt(s[1..], sub, j);
        assert s[j + 1..j + 1 + |sub|] == s[1..][j..j + |sub|];
        assert OccursAt(s, sub, j + 1);
      }
      forall i | OccursAt(s, sub, i) ensures i > 0 && OccursAt(s[1..], sub, i - 1) {
        assert s[0..|sub|] == s[..|sub|];
        assert s[1..][i - 1..i - 1 + |sub|] == s[i..i + |sub|];
      }
    }
  }

  /** A label cannot contain a string longer than itself. */
  lemma {:induction false} NotContainsLonger(s: string, sub: string)
    requires |s| < |sub|
    ensures !Contains(s, sub)
    decreases |s|
  {
    if |s| > 0 {
      NotContainsLonger(s[1..], sub);
    }
  }

  /** A string cannot contain `sub` when one of the characters of `sub` does
      not occur in it at all. */
  lemma {:induction false} NotContainsMissingChar(s: string, sub: string, j: nat)
    requires j < |sub| && sub[j] !in s
    ensures !Contains(s, sub)
    decreases |s|
  {
    if |sub| <= |s| {
      assert s[..|sub|][j] == s[j];
    }
    if |s| > 0 {
      NotContainsMissingChar(s[1..], sub, j);
    }
  }

  /** The card-network categories, with the string the dashboard shows. */
  datatype Network = VC | MC | JCB | CUP | Other {

    function Label(): string {
      match this
      case VC => "VC"
      case MC => "MC"
      case JCB => "JCB"
      case CUP => "CUP"
      case Other => "Other"
    }

    /** Position in the check order; the fallback `Other` comes last. */
    function Rank(): nat {
      match this
      case VC => 0
      case MC => 1
      case JCB => 2
      case CUP => 3
      case Other => 4
    }
  }

  /** `classify_card_type`: the first of VC, MC, JCB, CUP whose name occurs in
      the label, or Other when none does. */
  function ClassifyCardType(cardType: string): (n: Network)
    ensures !n.Other? ==> Contains(cardType, n.Label())
    ensures forall m: Network :: !m.Other? && m.Rank() < n.Rank() ==> !Contains(cardType, m.Label())
  {
    if Contains(cardType, "VC") then VC
    else if Contains(cardType, "MC") then MC
    else if Contains(cardType, "JCB") then JCB
    else if Contains(cardType, "CUP") then CUP
    else Network.Other
  }

  /** The routing categories, with the string the dashboard shows. */
  datatype Routing = OnUs | Intl | OffUs | Other {

    function Label(): string {
      match this
      case OnUs => "ON US"
      case Intl => "INTL"
      case OffUs => "OFF US"
      case Other => "Other"
    }
  }

  /** The two labels that are routed on-us, compared exactly. */
  predicate IsOnUsLabel(cardType: string) {
    cardType == "VC ON US" || cardType == "MC ON US"
  }

  /** The two labels that have no on/off/international split, compared exactly. */
  predicate IsJcbOrCup(cardType: string) {
    cardType == "JCB" || cardType == "CUP"
  }

  /** `classify_transaction`. The exact JCB/CUP test comes after the "INT"
      test, but neither label contains "INT", so `Other` is returned for
      exactly those two labels. */
  function ClassifyTransaction(cardType: string): (t: Routing)
    ensures t == OnUs <==> IsOnUsLabel(cardType)
    ensures t == Intl <==> !IsOnUsLabel(cardType) && Contains(cardType, "INT")
    ensures t == Routing.Other <==> IsJcbOrCup(cardType)
    ensures t == OffUs <==> !IsOnUsLabel(cardType) && !Contains(cardType, "INT") && !IsJcbOrCup(cardType)
  {
    NoIntInJcbOrCup();
    if IsOnUsLabel(cardType) then OnUs
    else if Contains(cardType, "INT") then Intl
    else if IsJcbOrCup(cardType) then Routing.Other
    else OffUs
  }

  /** Neither "JCB" nor "CUP" contains "INT". */
  lemma NoIntInJcbOrCup()
    ensures !Contains("JCB", "INT") && !Contains("CUP", "INT")
  {
    NotContainsLonger("JCB"[1..], "INT");
    NotContainsLonger("CUP"[1..], "INT");
    assert "JCB"[0] != "INT"[0] && "CUP"[0] != "INT"[0];
  }

  /** Distinct categories carry distinct labels, so the categories stand for
      the strings `classify_card_type` and `classify_transaction` return
      without merging any two of them. */
  lemma LabelsDistinct()
    ensures forall a: Network, b: Network :: a.Label() == b.Label() ==> a == b
    ensures forall a: Routing, b: Routing :: a.Label() == b.Label() ==> a == b
  {
  }

  /** The two postconditions of `ClassifyCardType` determine its result: any
      category meeting them is the one it returns. */
  lemma CardTypeRuleDeterminesNetwork(cardType: string, n: Network)
    requires !n.Other? ==> Contains(cardType, n.Label())
    requires forall m: Network :: !m.Other? && m.Rank() < n.Rank() ==> !Contains(cardType, m.Label())
    ensures n == ClassifyCardType(cardType)
  {
  }

  /** Labels from the dashboard's data, classified both ways. */
  lemma ClassifyOnUsLabel()
    ensures ClassifyCardType("VC ON US") == VC && ClassifyTransaction("VC ON US") == OnUs
  {
  }

  lemma ClassifyOffUsLabel()
    ensures ClassifyCardType("MC OFF US") == MC && ClassifyTransaction("MC OFF US") == OffUs
  {
    NotContainsMissingChar("MC OFF US", "VC", 0);
    NotContainsMissingChar("MC OFF US", "INT", 0);
  }

  /** "INT" wins over the network: a JCB international label is routed INTL. */
  lemma ClassifyJcbIntLabel()
    ensures ClassifyCardType("JCB INT") == JCB && ClassifyTransaction("JCB INT") == Intl
  {
    NotContainsMissingChar("JCB INT", "VC", 0);
    NotContainsMissingChar("JCB INT", "MC", 0);
  }

  lemma ClassifyJcbLabel()
    ensures ClassifyCardType("JCB") == JCB && ClassifyTransaction("JCB") == Routing.Other
  {
    NotContainsMissingChar("JCB", "VC", 0);
    NotContainsMissingChar("JCB", "MC", 0);
  }

  /** "AMEX", a network the dashboard does not know, falls through every test. */
  lemma ClassifyUnknownLabel()
    ensures ClassifyCardType("AMEX") == Network.Other && ClassifyTransaction("AMEX") == OffUs
  {
    NotContainsMissingChar("AMEX", "VC", 0);
    NotContainsMissingChar("AMEX", "MC", 1);
    NotContainsMissingChar("AMEX", "JCB", 0);
    NotContainsMissingChar("AMEX", "CUP", 0);
    NotContainsMissingChar("AMEX", "INT", 0);
  }
}
