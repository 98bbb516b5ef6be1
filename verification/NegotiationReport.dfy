/**
 * The negotiation report: a requisition's line items grouped by category, one
 * negotiation per category, and the totals row that must reconcile with the
 * purchase order.
 */
module NegotiationReport {
  import opened Basics
  import opened Requisitions

  datatype CategoryNegotiation = CategoryNegotiation(categoryId: Id, quadrant: string, lineItems: seq<LineItem>,
                                                     finalTotal: real, openingQuote: real, counterQuote: real)

  datatype SummaryRow = SummaryRow(opening: real, awarded: real, savings: real, savingsFraction: real)

  const UNCATEGORIZED: Id := "uncategorized"
  const DEFAULT_QUADRANT := "non_critical"

  /** Markup of the opening quote over the final total, by quadrant. */
  function Markup(quadrant: string): real {
    if quadrant == "leverage" then 0.10
    else if quadrant == "bottleneck" then 0.06
    else if quadrant == "strategic" then 0.04
    else 0.03
  }

  function CategoryOf(catalog: map<Id, Id>, li: LineItem): Id {
    Lookup(catalog, li.itemId, UNCATEGORIZED)
  }

  /** The line items of one category, in their order on the requisition. */
  function Group(catalog: map<Id, Id>, items: seq<LineItem>, c: Id): seq<LineItem> {
    if items == [] then [] else
      var out := Group(catalog, items[..|items| - 1], c);
      var li := items[|items| - 1];
      if CategoryOf(catalog, li) == c then out + [li] else out
  }

  /** The categories, in the order their first line item appears. */
  function FirstSeen(catalog: map<Id, Id>, items: seq<LineItem>): seq<Id> {
    if items == [] then [] else
      var out := FirstSeen(catalog, items[..|items| - 1]);
      var c := CategoryOf(catalog, items[|items| - 1]);
      if c in out then out else out + [c]
  }

  function Negotiate(quadrants: map<Id, string>, c: Id, lines: seq<LineItem>): CategoryNegotiation {
    var quadrant := Lookup(quadrants, c, DEFAULT_QUADRANT);
    var finalTotal := Total(lines);
    var opening := finalTotal * (1.0 + Markup(quadrant));
    CategoryNegotiation(c, quadrant, lines, finalTotal, opening, (opening + finalTotal) / 2.0)
  }

  function NegotiateAll(quadrants: map<Id, string>, catalog: map<Id, Id>, items: seq<LineItem>, order: seq<Id>)
    : seq<CategoryNegotiation>
  {
    if order == [] then [] else
      NegotiateAll(quadrants, catalog, items, order[..|order| - 1]) +
      [Negotiate(quadrants, order[|order| - 1], Group(catalog, items, order[|order| - 1]))]
  }

  // ---------------------------------------------------------------- the grouping loop

  lemma OneMoreItem(catalog: map<Id, Id>, items: seq<LineItem>, i: nat)
    requires i < |items|
    ensures FirstSeen(catalog, items[..i + 1])
         == var out, c := FirstSeen(catalog, items[..i]), CategoryOf(catalog, items[i]); if c in out then out else out + [c]
    ensures forall c | c != CategoryOf(catalog, items[i]) ::
              Group(catalog, items[..i + 1], c) == Group(catalog, items[..i], c)
    ensures Group(catalog, items[..i + 1], CategoryOf(catalog, items[i]))
         == Group(catalog, items[..i], CategoryOf(catalog, items[i])) + [items[i]]
  {
    assert items[..i + 1][..i] == items[..i];
  }

  lemma {:induction false} UnseenGroupEmpty(catalog: map<Id, Id>, items: seq<LineItem>, c: Id)
    requires c !in FirstSeen(catalog, items)
    ensures Group(catalog, items, c) == []
  {
    if items != [] { UnseenGroupEmpty(catalog, items[..|items| - 1], c); }
  }

  /** Groups grow in a dictionary while the list of categories keeps first-appearance order. */
  method GroupItems(catalog: map<Id, Id>, items: seq<LineItem>) returns (groups: map<Id, seq<LineItem>>, order: seq<Id>)
    ensures order == FirstSeen(catalog, items)
    ensures forall c | c in order :: c in groups && groups[c] == Group(catalog, items, c)
  {
    hide FirstSeen, Group, CategoryOf;
    groups := map[];
    order := [];
    NothingGrouped(catalog, items);
    for i := 0 to |items|
      invariant order == FirstSeen(catalog, items[..i])
      invariant forall c :: c in groups <==> c in order
      invariant forall c | c in groups :: groups[c] == Group(catalog, items[..i], c)
    {
      OneMoreItem(catalog, items, i);
      var c := CategoryOf(catalog, items[i]);
      if c !in groups {
        UnseenGroupEmpty(catalog, items[..i], c);
        groups := groups[c := []];
        order := order + [c];
      }
      groups := groups[c := groups[c] + [items[i]]];
    }
    assert items[..|items|] == items;
  }

  lemma NothingGrouped(catalog: map<Id, Id>, items: seq<LineItem>)
    ensures FirstSeen(catalog, items[..0]) == []
  {
  }

  method BuildNegotiations(quadrants: map<Id, string>, catalog: map<Id, Id>, items: seq<LineItem>)
    returns (negotiations: seq<CategoryNegotiation>)
    ensures negotiations == NegotiateAll(quadrants, catalog, items, FirstSeen(catalog, items))
  {
    hide FirstSeen, Group, Negotiate;
    var groups, order := GroupItems(catalog, items);
    negotiations := [];
    for j := 0 to |order|
      invariant negotiations == NegotiateAll(quadrants, catalog, items, order[..j])
    {
      assert order[..j + 1][..j] == order[..j] && order[j] in order;
      negotiations := negotiations + [Negotiate(quadrants, order[j], groups[order[j]])];
    }
    assert order[..|order|] == order;
  }

  // ---------------------------------------------------------------- partition

  /** No category occurs twice, each line item's category occurs, and no other does. */
  lemma {:induction false} CategoriesOnce(catalog: map<Id, Id>, items: seq<LineItem>)
    ensures NoDuplicates(FirstSeen(catalog, items))
    ensures forall c :: c in FirstSeen(catalog, items) <==> exists i | 0 <= i < |items| :: CategoryOf(catalog, items[i]) == c
  {
    if items != [] {
      var init := items[..|items| - 1];
      CategoriesOnce(catalog, init);
      forall i | 0 <= i < |items| ensures CategoryOf(catalog, items[i]) in FirstSeen(catalog, items) {
        if i < |init| { assert init[i] == items[i]; }
      }
      forall c | c in FirstSeen(catalog, items) ensures exists i | 0 <= i < |items| :: CategoryOf(catalog, items[i]) == c {
        if c in FirstSeen(catalog, init) {
          var i :| 0 <= i < |init| && CategoryOf(catalog, init[i]) == c;
          assert items[i] == init[i];
        } else {
          assert CategoryOf(catalog, items[|items| - 1]) == c;
        }
      }
    }
  }

  /** An earlier category has a line item before any line item of a later one. */
  ghost predicate AppearsBefore(catalog: map<Id, Id>, items: seq<LineItem>, c: Id, d: Id) {
    exists i | 0 <= i < |items| ::
      CategoryOf(catalog, items[i]) == c && forall j | 0 <= j <= i :: CategoryOf(catalog, items[j]) != d
  }

  lemma {:induction false} FirstAppearanceOrder(catalog: map<Id, Id>, items: seq<LineItem>, a: nat, b: nat)
    requires a < b < |FirstSeen(catalog, items)|
    ensures AppearsBefore(catalog, items, FirstSeen(catalog, items)[a], FirstSeen(catalog, items)[b])
  {
    var init := items[..|items| - 1];
    var seen := FirstSeen(catalog, init);
    CategoriesOnce(catalog, items);
    CategoriesOnce(catalog, init);
    var c, d := FirstSeen(catalog, items)[a], FirstSeen(catalog, items)[b];
    assert c in seen;
    if b < |seen| {
      FirstAppearanceOrder(catalog, init, a, b);
      var i :| 0 <= i < |init| && CategoryOf(catalog, init[i]) == c
               && forall j | 0 <= j <= i :: CategoryOf(catalog, init[j]) != d;
      assert items[i] == init[i] && forall j | 0 <= j <= i :: items[j] == init[j];
    } else {
      var i :| 0 <= i < |init| && CategoryOf(catalog, init[i]) == c;
      forall j | 0 <= j <= i ensures CategoryOf(catalog, items[j]) != d {
        assert items[j] == init[j];
        assert CategoryOf(catalog, init[j]) in seen;
      }
      assert items[i] == init[i];
    }
  }

  function Concatenated(catalog: map<Id, Id>, items: seq<LineItem>, order: seq<Id>): seq<LineItem> {
    if order == [] then [] else
      Concatenated(catalog, items, order[..|order| - 1]) + Group(catalog, items, order[|order| - 1])
  }

  function GroupTotals(catalog: map<Id, Id>, items: seq<LineItem>, order: seq<Id>): real {
    if order == [] then 0.0 else
      GroupTotals(catalog, items, order[..|order| - 1]) + Total(Group(catalog, items, order[|order| - 1]))
  }

  lemma TotalOneMore(lines: seq<LineItem>, li: LineItem)
    ensures Total(lines + [li]) == Total(lines) + li.total
  {
    assert (lines + [li])[..|lines|] == lines;
  }

  lemma GroupOneMore(catalog: map<Id, Id>, items: seq<LineItem>, li: LineItem, c: Id)
    ensures Group(catalog, items + [li], c)
         == if CategoryOf(catalog, li) == c then Group(catalog, items, c) + [li] else Group(catalog, items, c)
  {
    assert (items + [li])[..|items|] == items;
  }

  /** One more line item enters exactly one group: the one of its category, if listed. */
  lemma {:induction false} GroupsOneMore(catalog: map<Id, Id>, items: seq<LineItem>, li: LineItem, order: seq<Id>)
    requires NoDuplicates(order)
    ensures multiset(Concatenated(catalog, items + [li], order))
         == multiset(Concatenated(catalog, items, order)) +
            (if CategoryOf(catalog, li) in order then multiset{li} else multiset{})
    ensures GroupTotals(catalog, items + [li], order)
         == GroupTotals(catalog, items, order) + (if CategoryOf(catalog, li) in order then li.total else 0.0)
  {
    hide Group, CategoryOf, Total;
    if order != [] {
      var init, c := order[..|order| - 1], order[|order| - 1];
      assert order == init + [c];
      GroupsOneMore(catalog, items, li, init);
      GroupOneMore(catalog, items, li, c);
      TotalOneMore(Group(catalog, items, c), li);
    }
  }

  lemma {:induction false} GroupsOfAbsent(catalog: map<Id, Id>, items: seq<LineItem>, order: seq<Id>, c: Id)
    requires c !in FirstSeen(catalog, items)
    ensures Concatenated(catalog, items, order + [c]) == Concatenated(catalog, items, order)
    ensures GroupTotals(catalog, items, order + [c]) == GroupTotals(catalog, items, order)
  {
    assert (order + [c])[..|order|] == order;
    UnseenGroupEmpty(catalog, items, c);
  }

  /** The groups are a permutation of the line items, and their totals add up to the items' total. */
  lemma {:induction false} GroupsPartition(catalog: map<Id, Id>, items: seq<LineItem>)
    ensures multiset(Concatenated(catalog, items, FirstSeen(catalog, items))) == multiset(items)
    ensures GroupTotals(catalog, items, FirstSeen(catalog, items)) == Total(items)
  {
    hide Concatenated, GroupTotals, CategoryOf;
    if items == [] {
      NoGroups(catalog);
    } else {
      var init, li := items[..|items| - 1], items[|items| - 1];
      var seen, c := FirstSeen(catalog, init), CategoryOf(catalog, li);
      var all := FirstSeen(catalog, items);
      assert items == init + [li] && all == if c in seen then seen else seen + [c];
      GroupsPartition(catalog, init);
      CategoriesOnce(catalog, items);
      GroupsOneMore(catalog, init, li, all);
      if c !in seen { GroupsOfAbsent(catalog, init, seen, c); }
    }
  }

  lemma NoGroups(catalog: map<Id, Id>)
    ensures Concatenated(catalog, [], []) == [] && GroupTotals(catalog, [], []) == 0.0
  {
  }

  // ---------------------------------------------------------------- reconciliation

  function Savings(n: CategoryNegotiation): real {
    n.openingQuote - n.finalTotal
  }

  function SavingsFraction(n: CategoryNegotiation): real {
    if n.openingQuote != 0.0 then Savings(n) / n.openingQuote else 0.0
  }

  function SumOpening(ns: seq<CategoryNegotiation>): real {
    if ns == [] then 0.0 else SumOpening(ns[..|ns| - 1]) + ns[|ns| - 1].openingQuote
  }

  function SumFinal(ns: seq<CategoryNegotiation>): real {
    if ns == [] then 0.0 else SumFinal(ns[..|ns| - 1]) + ns[|ns| - 1].finalTotal
  }

  function SumSavings(ns: seq<CategoryNegotiation>): real {
    if ns == [] then 0.0 else SumSavings(ns[..|ns| - 1]) + Savings(ns[|ns| - 1])
  }

  /** The Total row of the report for an order. */
  function TotalRow(ns: seq<CategoryNegotiation>, orderTotal: real): SummaryRow {
    var opening := SumOpening(ns);
    var savings := opening - orderTotal;
    SummaryRow(opening, orderTotal, savings, if opening != 0.0 then savings / opening else 0.0)
  }

  lemma {:induction false} SumsAgree(ns: seq<CategoryNegotiation>)
    ensures SumSavings(ns) == SumOpening(ns) - SumFinal(ns)
  {
    if ns != [] { SumsAgree(ns[..|ns| - 1]); }
  }

  lemma SumFinalOneMore(ns: seq<CategoryNegotiation>, n: CategoryNegotiation)
    ensures SumFinal(ns + [n]) == SumFinal(ns) + n.finalTotal
  {
    assert (ns + [n])[..|ns|] == ns;
  }

  lemma {:induction false} FinalsAreGroupTotals(quadrants: map<Id, string>, catalog: map<Id, Id>, items: seq<LineItem>, order: seq<Id>)
    ensures SumFinal(NegotiateAll(quadrants, catalog, items, order)) == GroupTotals(catalog, items, order)
  {
    hide SumFinal, Group, Total;
    if order == [] {
      assert SumFinal([]) == 0.0 by { NoFinals(); }
    } else {
      var init, c := order[..|order| - 1], order[|order| - 1];
      FinalsAreGroupTotals(quadrants, catalog, items, init);
      SumFinalOneMore(NegotiateAll(quadrants, catalog, items, init), Negotiate(quadrants, c, Group(catalog, items, c)));
    }
  }

  lemma NoFinals()
    ensures SumFinal([]) == 0.0
  {
  }

  lemma {:induction false} NegotiationsInOrder(quadrants: map<Id, string>, catalog: map<Id, Id>, items: seq<LineItem>, order: seq<Id>)
    ensures var ns := NegotiateAll(quadrants, catalog, items, order);
      |ns| == |order| && forall i | 0 <= i < |ns| :: ns[i] == Negotiate(quadrants, order[i], Group(catalog, items, order[i]))
  {
    hide Negotiate, Group;
    if order != [] { NegotiationsInOrder(quadrants, catalog, items, order[..|order| - 1]); }
  }

  /**
   * For an order built from the requisition, the awarded totals of the
   * categories sum to the order's total, and their savings to the Total row's.
   */
  lemma ReportReconciles(quadrants: map<Id, string>, catalog: map<Id, Id>, tenantId: Id, pr: Requisition)
    ensures var ns := NegotiateAll(quadrants, catalog, pr.items, FirstSeen(catalog, pr.items));
            var order := BuildOrder(tenantId, pr);
      && SumFinal(ns) == order.totalValue
      && SumSavings(ns) == TotalRow(ns, order.totalValue).savings
      && TotalRow(ns, order.totalValue).awarded == order.totalValue
      && TotalRow(ns, order.totalValue).opening == order.totalValue + SumSavings(ns)
      && (TotalRow(ns, order.totalValue).opening == 0.0 ==> TotalRow(ns, order.totalValue).savingsFraction == 0.0)
  {
    var order := FirstSeen(catalog, pr.items);
    GroupsPartition(catalog, pr.items);
    FinalsAreGroupTotals(quadrants, catalog, pr.items, order);
    SumsAgree(NegotiateAll(quadrants, catalog, pr.items, order));
  }

  // ---------------------------------------------------------------- each category's negotiation, from the line items

  /** The line items of a category: by the catalog, or uncatalogued ones for "uncategorized". */
  ghost function InCategory(catalog: map<Id, Id>, c: Id): LineItem -> bool {
    (li: LineItem) => (if li.itemId in catalog then catalog[li.itemId] else "uncategorized") == c
  }

  ghost predicate NegotiationOf(n: CategoryNegotiation, quadrants: map<Id, string>, catalog: map<Id, Id>, items: seq<LineItem>) {
    && Picks(n.lineItems, items, InCategory(catalog, n.categoryId)) && n.lineItems != []
    && n.quadrant == (if n.categoryId in quadrants then quadrants[n.categoryId] else "non_critical")
    && n.finalTotal == Total(n.lineItems)
    && n.openingQuote == n.finalTotal * (if n.quadrant == "leverage" then 1.10 else if n.quadrant == "bottleneck" then 1.06
                                         else if n.quadrant == "strategic" then 1.04 else 1.03)
    && n.counterQuote == (n.openingQuote + n.finalTotal) / 2.0
  }

  lemma {:induction false} GroupPicks(catalog: map<Id, Id>, items: seq<LineItem>, c: Id)
    ensures Picks(Group(catalog, items, c), items, InCategory(catalog, c))
  {
    hide Picks;
    if items == [] {
      PicksNothing([], InCategory(catalog, c));
    } else {
      var init, li := items[..|items| - 1], items[|items| - 1];
      assert items == init + [li];
      GroupPicks(catalog, init, c);
      PicksOneMore(Group(catalog, init, c), init, InCategory(catalog, c), li);
    }
  }

  lemma {:induction false} SeenGroupIsThere(catalog: map<Id, Id>, items: seq<LineItem>, c: Id)
    requires c in FirstSeen(catalog, items)
    ensures Group(catalog, items, c) != []
  {
    var init, li := items[..|items| - 1], items[|items| - 1];
    if CategoryOf(catalog, li) != c { SeenGroupIsThere(catalog, init, c); }
  }

  /**
   * The report from the line items alone: one negotiation for each category of
   * an item and no other, with its items in order, and its quotes by the
   * quadrant of the category.
   */
  lemma ReportFromItems(quadrants: map<Id, string>, catalog: map<Id, Id>, items: seq<LineItem>)
    ensures var ns := NegotiateAll(quadrants, catalog, items, FirstSeen(catalog, items));
      && (forall n | n in ns :: NegotiationOf(n, quadrants, catalog, items))
      && (forall i, j | 0 <= i < j < |ns| :: ns[i].categoryId != ns[j].categoryId)
      && (forall li | li in items :: exists n | n in ns :: InCategory(catalog, n.categoryId)(li))
  {
    var order := FirstSeen(catalog, items);
    var ns := NegotiateAll(quadrants, catalog, items, order);
    NegotiationsInOrder(quadrants, catalog, items, order);
    CategoriesOnce(catalog, items);
    hide FirstSeen, NegotiateAll, Group, Total, Picks;
    forall i | 0 <= i < |ns| ensures NegotiationOf(ns[i], quadrants, catalog, items) {
      assert order[i] in order;
      GroupPicks(catalog, items, order[i]);
      SeenGroupIsThere(catalog, items, order[i]);
    }
    forall li | li in items ensures exists n | n in ns :: InCategory(catalog, n.categoryId)(li) {
      var i :| 0 <= i < |items| && items[i] == li;
      assert CategoryOf(catalog, items[i]) in order;
      var k :| 0 <= k < |order| && order[k] == CategoryOf(catalog, li);
      assert ns[k] in ns && InCategory(catalog, ns[k].categoryId)(li);
    }
  }

  // ---------------------------------------------------------------- savings bounds

  lemma Fraction(x: real, y: real, m: real)
    requires y > 0.0 && m > 0.0 && x == y * m
    ensures x / (y + x) == m / (1.0 + m)
  {
    assert y + x == y * (1.0 + m);
    assert m / (1.0 + m) * (y + x) == x;
  }

  /** The counter-offer is the midpoint between opening and award; the saved fraction depends on the quadrant alone. */
  lemma CategorySavings(quadrants: map<Id, string>, c: Id, lines: seq<LineItem>)
    requires Total(lines) > 0.0
    ensures var n := Negotiate(quadrants, c, lines);
      && n.finalTotal < n.counterQuote < n.openingQuote
      && n.counterQuote - n.finalTotal == n.openingQuote - n.counterQuote
      && SavingsFraction(n) == Markup(n.quadrant) / (1.0 + Markup(n.quadrant))
  {
    var n := Negotiate(quadrants, c, lines);
    Fraction(Savings(n), n.finalTotal, Markup(n.quadrant));
  }

  /** Nothing is saved, and nothing divided by zero, on a category without cost. */
  lemma NothingSavedOnNothing(quadrants: map<Id, string>, c: Id, lines: seq<LineItem>)
    requires Total(lines) == 0.0
    ensures var n := Negotiate(quadrants, c, lines);
      n.openingQuote == 0.0 && n.counterQuote == 0.0 && Savings(n) == 0.0 && SavingsFraction(n) == 0.0
  {
  }

  lemma {:induction false} SavingsAreBounded(ns: seq<CategoryNegotiation>)
    requires forall i | 0 <= i < |ns| :: Marked(ns[i])
    ensures 0.03 * SumFinal(ns) <= SumSavings(ns) <= 0.10 * SumFinal(ns)
    ensures ns != [] ==> SumFinal(ns) > 0.0
    ensures ns == [] ==> SumFinal(ns) == 0.0
  {
    if ns != [] {
      SavingsAreBounded(ns[..|ns| - 1]);
    }
  }

  lemma MulStrict(a: real, b: real, c: real)
    requires a < b && c > 0.0
    ensures a * c < b * c
  {
    assert (b - a) * c > 0.0;
  }

  lemma FractionBounds(savings: real, finals: real)
    requires finals > 0.0 && 0.03 * finals <= savings <= 0.10 * finals
    ensures 3.0 / 103.0 <= savings / (finals + savings) <= 1.0 / 11.0
  {
    var f, lo, hi := savings / (finals + savings), 3.0 / 103.0, 1.0 / 11.0;
    assert f * (finals + savings) == savings;
    if f < lo { MulStrict(f, lo, finals + savings); }
    if f > hi { MulStrict(hi, f, finals + savings); }
  }

  ghost predicate Marked(n: CategoryNegotiation) {
    n.finalTotal > 0.0 && n.openingQuote == n.finalTotal * (1.0 + Markup(n.quadrant))
  }

  lemma RowBounds(ns: seq<CategoryNegotiation>, orderTotal: real)
    requires ns != [] && SumFinal(ns) == orderTotal && forall i | 0 <= i < |ns| :: Marked(ns[i])
    ensures 3.0 / 103.0 <= TotalRow(ns, orderTotal).savingsFraction <= 1.0 / 11.0
  {
    SavingsAreBounded(ns);
    SumsAgree(ns);
    FractionBounds(SumSavings(ns), SumFinal(ns));
  }

  /**
   * With at least one line item and a positive total in every category, the
   * report of a reconciling order saves between 3/103 and 1/11 of the opening
   * quotes: the extremes of the markup table.
   */
  lemma AggregateSavingsBounded(quadrants: map<Id, string>, catalog: map<Id, Id>, tenantId: Id, pr: Requisition)
    requires pr.items != []
    requires forall c | c in FirstSeen(catalog, pr.items) :: Total(Group(catalog, pr.items, c)) > 0.0
    ensures var ns := NegotiateAll(quadrants, catalog, pr.items, FirstSeen(catalog, pr.items));
            var row := TotalRow(ns, BuildOrder(tenantId, pr).totalValue);
      3.0 / 103.0 <= row.savingsFraction <= 1.0 / 11.0
  {
    hide Group, FirstSeen, NegotiateAll, Total, TotalRow, SumFinal;
    var order := FirstSeen(catalog, pr.items);
    var ns := NegotiateAll(quadrants, catalog, pr.items, order);
    CategoriesOnce(catalog, pr.items);
    assert CategoryOf(catalog, pr.items[0]) in order;
    NegotiationsInOrder(quadrants, catalog, pr.items, order);
    forall i | 0 <= i < |ns| ensures Marked(ns[i]) {
      assert order[i] in order;
    }
    ReportReconciles(quadrants, catalog, tenantId, pr);
    RowBounds(ns, BuildOrder(tenantId, pr).totalValue);
  }
}
