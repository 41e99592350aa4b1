/**
 * The pharmacy's static data and badge helpers: the medicine record, the
 * five sample medicines, and the expiry and stock colour rules. The day
 * difference an expiry date is compared by comes from the clock, so it is
 * an input here.
 */
module PharmacyData {

  import opened Badge

  /** A medicine row. `priceCents` is the price in cents (the source holds a float). */
  datatype Medicine = Medicine(
    id: int,
    sn: int,
    name: string,
    genericName: string,
    supplier: string,
    priceCents: int,
    inStock: int,
    reorderLevel: int,
    expiryDate: string,
    batchNumber: string)

  const Paracetamol := Medicine(1, 1, "Paracetamol", "Acetaminophen", "DrugCorp", 550, 1200, 200, "2026-05-15", "PC-2023-A")
  const Amoxicillin := Medicine(2, 2, "Amoxicillin", "Amoxicillin", "PharmaLink", 1575, 80, 100, "2025-01-20", "AMX-2024-B")
  const VitaminC := Medicine(3, 3, "Vitamin C", "Ascorbic Acid", "HealthCo", 800, 1500, 250, "2027-11-30", "VITC-2024-C")
  const Metformin := Medicine(4, 4, "Metformin", "Metformin HCl", "MediLife", 1225, 150, 150, "2025-07-01", "MET-2024-D")
  const Lagos := Medicine(5, 5, "Lagos", "Unknown", "Generic Pharma", 300, 0, 50, "2025-03-10", "GEN-2024-E")

  /** `sampleMedicines`. */
  const SampleMedicines: seq<Medicine> := [Paracetamol, Amoxicillin, VitaminC, Metformin, Lagos]

  /** The sample holds five medicines with ids 1 to 5 in order, serial number equal to id, one of them out of stock. */
  lemma SampleShape()
    ensures |SampleMedicines| == 5
    ensures forall i :: 0 <= i < 5 ==> SampleMedicines[i].id == i + 1 == SampleMedicines[i].sn
    ensures forall i, j :: 0 <= i < j < 5 ==> SampleMedicines[i].id != SampleMedicines[j].id
    ensures forall i :: 0 <= i < 5 ==> (SampleMedicines[i].inStock == 0 <==> i == 4)
  {
  }

  /**
   * `getExpiryStatusColor`, given the whole-day difference between the
   * expiry date and today: red once past, orange within 90 days, green after.
   */
  function ExpiryTone(diffDays: int): (t: Tone)
    ensures t == Red <==> diffDays < 0
    ensures t == Orange <==> 0 <= diffDays < 90
    ensures t == Green <==> 90 <= diffDays
  {
    if diffDays < 0 then Red
    else if diffDays < 90 then Orange
    else Green
  }

  /**
   * `getStockStatusColor`: red for an empty shelf, orange at or below the
   * reorder level, green above it.
   */
  function StockTone(inStock: int, reorderLevel: int): (t: Tone)
    ensures t == Red <==> inStock == 0
    ensures t == Orange <==> inStock != 0 && inStock <= reorderLevel
    ensures t == Green <==> inStock != 0 && inStock > reorderLevel
  {
    if inStock == 0 then Red
    else if inStock <= reorderLevel then Orange
    else Green
  }

}
