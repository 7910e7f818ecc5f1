/** The mock catalog of eight services that both the public services page and the admin
    services screen list (the two copies hold the same entries). Images are left out. */
module ServiceCatalog {
  import opened Common

  const Catalog: seq<Service> := [
    Service("1", "Pipe Repair & Installation", Plumbing,
      "Expert repair and installation of all types of pipes including PVC, copper, and galvanized steel.",
      85.0, 2),
    Service("2", "Electrical Panel Upgrade", Electrical,
      "Upgrade your electrical panel to safely handle your home's power needs with modern circuit breakers.",
      250.0, 4),
    Service("3", "Deep House Cleaning", Cleaning,
      "Comprehensive cleaning service covering all rooms, bathrooms, kitchen, and common areas.",
      120.0, 3),
    Service("4", "Interior Wall Painting", Painting,
      "Professional interior painting with premium paint and detailed preparation for flawless results.",
      180.0, 6),
    Service("5", "Bathroom Plumbing Services", Plumbing,
      "Full bathroom plumbing services including toilet, sink, shower, and bathtub installation or repair.",
      95.0, 2),
    Service("6", "Light Fixture Installation", Electrical,
      "Professional installation of ceiling fans, chandeliers, recessed lighting, and other light fixtures.",
      75.0, 1),
    Service("7", "Cabinet Installation", Carpentry,
      "Custom cabinet installation for kitchens, bathrooms, and other spaces with precise measurements.",
      320.0, 8),
    Service("8", "Garden Maintenance", Gardening,
      "Regular garden maintenance including lawn mowing, pruning, weeding, and plant care.",
      60.0, 2)
  ]

  /** The catalog's ids are "1" to "8" in order, and every price is positive. */
  lemma CatalogShape()
    ensures |Catalog| == 8
    ensures forall k :: 0 <= k < |Catalog| ==> Catalog[k].id == NatToString(k + 1)
    ensures forall k :: 0 <= k < |Catalog| ==> Catalog[k].price > 0.0
  {
    assert forall k :: 0 <= k < 8 ==> NatToString(k + 1) == [['1', '2', '3', '4', '5', '6', '7', '8'][k]];
  }
}
