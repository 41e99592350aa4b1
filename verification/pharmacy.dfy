/**
 * The Pharmacy page: the medicine list filtered by a search box, a stock
 * filter and an expiry filter, the two counting metric cards, and the cards'
 * click handlers that set the filters. `daysUntil` maps an expiry date to the
 * whole-day difference from today (`Math.ceil` of the clock difference).
 */
module Pharmacy {

  import opened Text
  import opened Seqs
  import opened Badge
  import opened PharmacyData

  /** The three filter controls; "All" is the no-constraint sentinel of both drop-downs. */
  datatype Filters = Filters(query: string, stock: string, expiry: string)

  const StockFilters: seq<string> := ["All", "In Stock", "Low Stock", "Out of Stock"]
  const ExpiryFilters: seq<string> := ["All", "Expiring Soon", "Expired"]

  const InitialFilters := Filters("", "All", "All")

  /** Name, generic name, supplier or batch number contain the query, ignoring case. */
  predicate MatchesSearch(m: Medicine, query: string)
  {
    MatchesIgnoringCase(m.name, query)
    || MatchesIgnoringCase(m.genericName, query)
    || MatchesIgnoringCase(m.supplier, query)
    || MatchesIgnoringCase(m.batchNumber, query)
  }

  predicate InStock(m: Medicine) { m.inStock > m.reorderLevel }
  predicate LowStock(m: Medicine) { m.inStock <= m.reorderLevel && m.inStock > 0 }
  predicate OutOfStock(m: Medicine) { m.inStock == 0 }

  predicate ExpiringSoon(diffDays: int) { diffDays < 90 && diffDays >= 0 }
  predicate Expired(diffDays: int) { diffDays < 0 }

  /** `matchesStock`: an option other than the four listed lets nothing through. */
  function MatchesStock(m: Medicine, stock: string): (b: bool)
    ensures stock == "All" ==> b
    ensures stock == "In Stock" ==> (b <==> InStock(m))
    ensures stock == "Low Stock" ==> (b <==> LowStock(m))
    ensures stock == "Out of Stock" ==> (b <==> OutOfStock(m))
    ensures stock !in StockFilters ==> !b
  {
    || stock == "All"
    || (stock == "In Stock" && m.inStock > m.reorderLevel)
    || (stock == "Low Stock" && m.inStock <= m.reorderLevel && m.inStock > 0)
    || (stock == "Out of Stock" && m.inStock == 0)
  }

  /** `matchesExpiry` on the day difference: an unknown option lets nothing through. */
  function MatchesExpiry(diffDays: int, expiry: string): (b: bool)
    ensures expiry == "All" ==> b
    ensures expiry == "Expiring Soon" ==> (b <==> 0 <= diffDays < 90)
    ensures expiry == "Expired" ==> (b <==> diffDays < 0)
    ensures expiry !in ExpiryFilters ==> !b
  {
    || expiry == "All"
    || (expiry == "Expiring Soon" && diffDays < 90 && diffDays >= 0)
    || (expiry == "Expired" && diffDays < 0)
  }

  /** A row is shown when the search, stock and expiry predicates all hold. */
  predicate Visible(m: Medicine, f: Filters, daysUntil: string -> int)
  {
    MatchesSearch(m, f.query) && MatchesStock(m, f.stock) && MatchesExpiry(daysUntil(m.expiryDate), f.expiry)
  }

  /** The filter callback of `filteredMedicines`. */
  function VisibleUnder(f: Filters, daysUntil: string -> int): Medicine -> bool
  {
    (m: Medicine) => Visible(m, f, daysUntil)
  }

  lemma EmptySearchMatchesAll()
    ensures forall m: Medicine :: MatchesSearch(m, "")
  {
    forall m: Medicine ensures MatchesSearch(m, "") {
      EmptyQueryMatches(m.name);
    }
  }

  /**
   * `filteredMedicines`: a medicine is listed exactly when the search, stock
   * and expiry predicates all hold; the list keeps the original order, and
   * with every control at its sentinel it is the whole inventory.
   */
  function FilteredMedicines(meds: seq<Medicine>, f: Filters, daysUntil: string -> int): (r: seq<Medicine>)
    ensures IsSubseq(r, meds)
    ensures forall i :: 0 <= i < |r| ==> Visible(r[i], f, daysUntil)
    ensures forall i :: 0 <= i < |meds| ==>
      (Visible(meds[i], f, daysUntil) ==> meds[i] in r)
    ensures |r| == CountWhere(meds, VisibleUnder(f, daysUntil))
    ensures f == InitialFilters ==> r == meds
  {
    EmptySearchMatchesAll();
    Filter(meds, VisibleUnder(f, daysUntil))
  }

  /** `lowStockCount`: how many medicines are low on stock (at or below reorder level, not empty). */
  function LowStockCount(meds: seq<Medicine>): (n: nat)
    ensures n <= |meds|
    ensures n == CountWhere(meds, LowStock)
  {
    |Filter(meds, LowStock)|
  }

  /** `expiringSoonCount`: how many medicines expire within the next 90 days. */
  function ExpiringSoonCount(meds: seq<Medicine>, daysUntil: string -> int): (n: nat)
    ensures n <= |meds|
    ensures n == CountWhere(meds, (m: Medicine) => ExpiringSoon(daysUntil(m.expiryDate)))
  {
    |Filter(meds, (m: Medicine) => ExpiringSoon(daysUntil(m.expiryDate)))|
  }

  /** The Low Stock card's `onClick`: show low stock, clear the expiry filter, keep the search. */
  function ClickLowStockCard(f: Filters): (r: Filters)
    ensures r.stock == "Low Stock" && r.expiry == "All" && r.query == f.query
  {
    f.(stock := "Low Stock", expiry := "All")
  }

  /** The Expiring Soon card's `onClick`: show expiring soon, clear the stock filter, keep the search. */
  function ClickExpiringSoonCard(f: Filters): (r: Filters)
    ensures r.expiry == "Expiring Soon" && r.stock == "All" && r.query == f.query
  {
    f.(expiry := "Expiring Soon", stock := "All")
  }

  // ---------------------------------------------------------------------------
  // Properties

  /** For a non-negative stock and reorder level, exactly one stock class applies. */
  lemma StockClassesPartition(m: Medicine)
    requires m.inStock >= 0 && m.reorderLevel >= 0
    ensures InStock(m) || LowStock(m) || OutOfStock(m)
    ensures !(InStock(m) && LowStock(m)) && !(InStock(m) && OutOfStock(m)) && !(LowStock(m) && OutOfStock(m))
  {
  }

  /** No day difference is both expiring soon and expired. */
  lemma ExpiryClassesExclusive(diffDays: int)
    ensures !(ExpiringSoon(diffDays) && Expired(diffDays))
    ensures ExpiringSoon(diffDays) || Expired(diffDays) <==> diffDays < 90
  {
  }

  /** The stock badge agrees with the stock filter for non-negative stock and reorder level. */
  lemma StockToneAgreesWithFilter(m: Medicine)
    requires m.inStock >= 0 && m.reorderLevel >= 0
    ensures StockTone(m.inStock, m.reorderLevel) == Red <==> MatchesStock(m, "Out of Stock")
    ensures StockTone(m.inStock, m.reorderLevel) == Orange <==> MatchesStock(m, "Low Stock")
    ensures StockTone(m.inStock, m.reorderLevel) == Green <==> MatchesStock(m, "In Stock")
  {
  }

  /** The expiry badge agrees with the expiry filter: red is "Expired", orange is "Expiring Soon". */
  lemma ExpiryToneAgreesWithFilter(diffDays: int)
    ensures ExpiryTone(diffDays) == Red <==> MatchesExpiry(diffDays, "Expired")
    ensures ExpiryTone(diffDays) == Orange <==> MatchesExpiry(diffDays, "Expiring Soon")
    ensures ExpiryTone(diffDays) == Green <==> !MatchesExpiry(diffDays, "Expired") && !MatchesExpiry(diffDays, "Expiring Soon")
  {
  }

  /**
   * The number on the Low Stock card is the number of rows the page lists
   * after that card is clicked with an empty search box, whatever the clock.
   */
  lemma {:induction false} LowStockCardMatchesList(meds: seq<Medicine>, f: Filters, daysUntil: string -> int)
    requires f.query == ""
    ensures LowStockCount(meds) == |FilteredMedicines(meds, ClickLowStockCard(f), daysUntil)|
  {
    var g := ClickLowStockCard(f);
    EmptySearchMatchesAll();
    CountWhereAgree(meds, LowStock, VisibleUnder(g, daysUntil));
  }

  /** Likewise for the Expiring Soon card. */
  lemma {:induction false} ExpiringSoonCardMatchesList(meds: seq<Medicine>, f: Filters, daysUntil: string -> int)
    requires f.query == ""
    ensures ExpiringSoonCount(meds, daysUntil) == |FilteredMedicines(meds, ClickExpiringSoonCard(f), daysUntil)|
  {
    var g := ClickExpiringSoonCard(f);
    EmptySearchMatchesAll();
    CountWhereAgree(meds, (m: Medicine) => ExpiringSoon(daysUntil(m.expiryDate)), VisibleUnder(g, daysUntil));
  }

  // ---------------------------------------------------------------------------
  // Scenarios on the sample inventory

  /** A medicine none of whose searched fields holds an 'x' or 'X' does not match "amox". */
  lemma LacksX(m: Medicine)
    requires NoX(m.name, m.genericName, m.supplier, m.batchNumber)
    ensures !MatchesSearch(m, "amox")
  {
    assert Lower("amox") == "amox";
    LowerLacks(m.name, 'x');
    LowerLacks(m.genericName, 'x');
    LowerLacks(m.supplier, 'x');
    LowerLacks(m.batchNumber, 'x');
    MissingCharExcludes(Lower(m.name), "amox", 3);
    MissingCharExcludes(Lower(m.genericName), "amox", 3);
    MissingCharExcludes(Lower(m.supplier), "amox", 3);
    MissingCharExcludes(Lower(m.batchNumber), "amox", 3);
  }

  lemma AmoxicillinMatches()
    ensures MatchesSearch(Amoxicillin, "amox")
  {
    assert Lower("amox") == "amox";
    assert Lower("Amoxicillin")[..4] == "amox";
    assert OccursAt(Lower("Amoxicillin"), "amox", 0);
  }

  /** None of the four searched texts holds an 'x' or 'X'. */
  predicate NoX(name: string, genericName: string, supplier: string, batchNumber: string)
  {
    'x' !in name && 'X' !in name && 'x' !in genericName && 'X' !in genericName
    && 'x' !in supplier && 'X' !in supplier && 'x' !in batchNumber && 'X' !in batchNumber
  }

  lemma ParacetamolTextsLackX() ensures NoX("Paracetamol", "Acetaminophen", "DrugCorp", "PC-2023-A") {}

  lemma ParacetamolMisses() ensures !MatchesSearch(Paracetamol, "amox")
  {
    ParacetamolTextsLackX();
    LacksX(Paracetamol);
  }

  lemma VitaminCTextsLackX() ensures NoX("Vitamin C", "Ascorbic Acid", "HealthCo", "VITC-2024-C") {}

  lemma VitaminCMisses() ensures !MatchesSearch(VitaminC, "amox")
  {
    VitaminCTextsLackX();
    LacksX(VitaminC);
  }

  lemma MetforminTextsLackX() ensures NoX("Metformin", "Metformin HCl", "MediLife", "MET-2024-D") {}

  lemma MetforminMisses() ensures !MatchesSearch(Metformin, "amox")
  {
    MetforminTextsLackX();
    LacksX(Metformin);
  }

  lemma LagosTextsLackX() ensures NoX("Lagos", "Unknown", "Generic Pharma", "GEN-2024-E") {}

  lemma LagosMisses() ensures !MatchesSearch(Lagos, "amox")
  {
    LagosTextsLackX();
    LacksX(Lagos);
  }

  // Filtering five-element lists, for the sample scenarios below.

  lemma {:induction false} KeepsSecondOfFive<T>(a: T, b: T, c: T, d: T, e: T, p: T -> bool)
    requires !p(a) && p(b) && !p(c) && !p(d) && !p(e)
    ensures Filter([a] + ([b] + ([c] + ([d] + [e]))), p) == [b]
  {
    FilterPrepend(e, [], p);
    assert [e] + [] == [e];
    FilterPrepend(d, [e], p);
    FilterPrepend(c, [d] + [e], p);
    FilterPrepend(b, [c] + ([d] + [e]), p);
    FilterPrepend(a, [b] + ([c] + ([d] + [e])), p);
  }

  lemma {:induction false} KeepsSecondAndFourthOfFive<T>(a: T, b: T, c: T, d: T, e: T, p: T -> bool)
    requires !p(a) && p(b) && !p(c) && p(d) && !p(e)
    ensures Filter([a] + ([b] + ([c] + ([d] + [e]))), p) == [b, d]
  {
    assert [b] + [d] == [b, d];
    FilterPrepend(e, [], p);
    assert [e] + [] == [e];
    FilterPrepend(d, [e], p);
    FilterPrepend(c, [d] + [e], p);
    FilterPrepend(b, [c] + ([d] + [e]), p);
    FilterPrepend(a, [b] + ([c] + ([d] + [e])), p);
  }

  lemma {:induction false} KeepsFifthOfFive<T>(a: T, b: T, c: T, d: T, e: T, p: T -> bool)
    requires !p(a) && !p(b) && !p(c) && !p(d) && p(e)
    ensures Filter([a] + ([b] + ([c] + ([d] + [e]))), p) == [e]
  {
    FilterPrepend(e, [], p);
    assert [e] + [] == [e];
    FilterPrepend(d, [e], p);
    FilterPrepend(c, [d] + [e], p);
    FilterPrepend(b, [c] + ([d] + [e]), p);
    FilterPrepend(a, [b] + ([c] + ([d] + [e])), p);
  }

  /** The sample as the nested concatenation the five-element filter lemmas take. */
  lemma SampleNested()
    ensures SampleMedicines == [Paracetamol] + ([Amoxicillin] + ([VitaminC] + ([Metformin] + [Lagos])))
  {
  }

  /** Searching the sample for "amox" lists Amoxicillin (id 2) alone, whatever the clock. */
  lemma SampleSearchAmox(daysUntil: string -> int)
    ensures FilteredMedicines(SampleMedicines, Filters("amox", "All", "All"), daysUntil) == [Amoxicillin]
    ensures Amoxicillin.id == 2
  {
    AmoxicillinMatches();
    ParacetamolMisses();
    VitaminCMisses();
    MetforminMisses();
    LagosMisses();
    var p := VisibleUnder(Filters("amox", "All", "All"), daysUntil);
    assert !p(Paracetamol) && p(Amoxicillin) && !p(VitaminC) && !p(Metformin) && !p(Lagos);
    KeepsSecondOfFive(Paracetamol, Amoxicillin, VitaminC, Metformin, Lagos, p);
    SampleNested();
  }

  /**
   * The "Low Stock" filter on the sample lists Amoxicillin (80 of 100) and
   * Metformin (150 of 150: at the reorder level counts as low), ids 2 and 4.
   */
  lemma SampleLowStock(daysUntil: string -> int)
    ensures FilteredMedicines(SampleMedicines, Filters("", "Low Stock", "All"), daysUntil) == [Amoxicillin, Metformin]
    ensures Amoxicillin.id == 2 && Metformin.id == 4
  {
    EmptySearchMatchesAll();
    var p := VisibleUnder(Filters("", "Low Stock", "All"), daysUntil);
    assert !p(Paracetamol) && p(Amoxicillin) && !p(VitaminC) && p(Metformin) && !p(Lagos);
    KeepsSecondAndFourthOfFive(Paracetamol, Amoxicillin, VitaminC, Metformin, Lagos, p);
    SampleNested();
  }

  /** The Low Stock card on the sample shows 2, the length of the list its click produces. */
  lemma SampleLowStockCount(daysUntil: string -> int)
    ensures LowStockCount(SampleMedicines) == 2
  {
    SampleLowStock(daysUntil);
    LowStockCardMatchesList(SampleMedicines, InitialFilters, daysUntil);
    assert ClickLowStockCard(InitialFilters) == Filters("", "Low Stock", "All");
  }

  /** The "Out of Stock" filter on the sample lists the one empty shelf, id 5. */
  lemma SampleOutOfStock(daysUntil: string -> int)
    ensures FilteredMedicines(SampleMedicines, Filters("", "Out of Stock", "All"), daysUntil) == [Lagos]
    ensures Lagos.id == 5
  {
    EmptySearchMatchesAll();
    var p := VisibleUnder(Filters("", "Out of Stock", "All"), daysUntil);
    assert !p(Paracetamol) && !p(Amoxicillin) && !p(VitaminC) && !p(Metformin) && p(Lagos);
    KeepsFifthOfFive(Paracetamol, Amoxicillin, VitaminC, Metformin, Lagos, p);
    SampleNested();
  }

}
