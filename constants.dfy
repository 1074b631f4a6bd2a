/** The static catalog: the three attractions, the timeslots and the two endpoints (constants.ts). */
module Constants {
  import opened Types

  // The long catalog texts are named constants of their own, so that a proof
  // about the catalog does not have to carry every character of them.
  const OrangutanDescription: string := "Observe rescued orangutans in their natural habitat during feeding times."
  const OrangutanImage: string := "https://images.unsplash.com/photo-1541336032412-2048a678540d?auto=format&fit=crop&q=80&w=800"
  const OrangutanSite: string := "https://sabahtourism.com/destination/sepilok-orangutan-rehabilitation-centre/"
  const SunBearDescription: string := "The world\U{2019}s only sun bear conservation facility, home to the smallest bears."
  const SunBearImage: string := "https://images.unsplash.com/photo-1590273466070-40c466b4432d?auto=format&fit=crop&q=80&w=800"
  const SunBearSite: string := "https://www.bsbcc.org.my/"
  const ComboDescription: string := "Full experience: Visit both the Orangutan Sanctuary and Sun Bear Centre."
  const ComboImage: string := "https://images.unsplash.com/photo-1441974231531-c6227db76b6e?auto=format&fit=crop&q=80&w=800"
  const ComboSite: string := "https://sabahtourism.com/destination/rainforest-discovery-centre-rdc/"

  const Attractions: seq<Attraction> := [
    Attraction(
      Orangutan,
      "Orangutan Sanctuary",
      OrangutanDescription,
      OrangutanImage,
      Some(OrangutanSite),
      Prices(30, 15)),
    Attraction(
      SunBear,
      "Sun Bear Centre",
      SunBearDescription,
      SunBearImage,
      Some(SunBearSite),
      Prices(30, 15)),
    Attraction(
      Combo,
      "Rainforest Combo",
      ComboDescription,
      ComboImage,
      Some(ComboSite),
      Prices(50, 25))
  ]

  const TimeSlots: seq<string> := ["09:00 AM", "11:00 AM", "02:00 PM", "03:30 PM"]

  const WhatsAppNumber: string := "60123109793"

  const WebhookUrl: string :=
    "https://script.google.com/macros/s/AKfycbw6BcZL0KDmkwT1U3tPYUJYc8-IwBkHfdiTyoeL6arOc76SBwcufVUt3ecy3brAUb1M/exec"

  /**
   * `catalog.find(a => a.id === id)`: the first entry carrying `id`, or
   * nothing when no entry does.
   */
  function Find(catalog: seq<Attraction>, id: AttractionType): (r: Option<Attraction>)
    ensures r.Some? <==> exists i :: 0 <= i < |catalog| && catalog[i].id == id
    ensures r.Some? ==> r.value.id == id
    ensures r.Some? ==> exists i :: 0 <= i < |catalog| && catalog[i] == r.value &&
                          forall j :: 0 <= j < i ==> catalog[j].id != id
  {
    if catalog == [] then None
    else if catalog[0].id == id then Some(catalog[0])
    else
      var r := Find(catalog[1..], id);
      assert r.Some? ==> exists i :: 0 <= i < |catalog| && catalog[i] == r.value &&
                          forall j :: 0 <= j < i ==> catalog[j].id != id by {
        if r.Some? {
          var i :| 0 <= i < |catalog[1..]| && catalog[1..][i] == r.value &&
                   forall j :: 0 <= j < i ==> catalog[1..][j].id != id;
          assert catalog[i + 1] == r.value;
          forall j | 0 <= j < i + 1 ensures catalog[j].id != id {
            if j > 0 { assert catalog[j] == catalog[1..][j - 1]; }
          }
        }
      }
      assert (exists i :: 0 <= i < |catalog| && catalog[i].id == id) ==> r.Some? by {
        if exists i :: 0 <= i < |catalog| && catalog[i].id == id {
          var i :| 0 <= i < |catalog| && catalog[i].id == id;
          assert i > 0 && catalog[1..][i - 1].id == id;
        }
      }
      r
  }

  /** The catalog has exactly three entries, one per identifier, in the order of the type. */
  lemma CatalogIds()
    ensures |Attractions| == 3
    ensures Attractions[0].id == Orangutan && Attractions[1].id == SunBear && Attractions[2].id == Combo
    ensures forall i, j :: 0 <= i < j < |Attractions| ==> Attractions[i].id != Attractions[j].id
  {
  }

  /** Looking up any identifier in the catalog succeeds, and finds the entry carrying that identifier. */
  lemma FindAlwaysSucceeds(id: AttractionType)
    ensures Find(Attractions, id).Some?
    ensures Find(Attractions, id).value.id == id
  {
    match id
    case Orangutan => assert Attractions[0].id == id;
    case SunBear => assert Attractions[1].id == id;
    case Combo => assert Attractions[2].id == id;
  }

  /** Every catalog price is a non-negative integer; the two sanctuaries cost 30/15, the combo 50/25. */
  lemma CatalogPrices()
    ensures forall i :: 0 <= i < |Attractions| ==> Attractions[i].prices.adult >= 0 && Attractions[i].prices.child >= 0
    ensures Attractions[0].prices == Prices(30, 15)
    ensures Attractions[1].prices == Prices(30, 15)
    ensures Attractions[2].prices == Prices(50, 25)
  {
  }

  /** There are exactly four distinct timeslots and the first is the morning slot. */
  lemma TimeSlotsDistinct()
    ensures |TimeSlots| == 4
    ensures TimeSlots[0] == "09:00 AM"
    ensures forall i, j :: 0 <= i < j < |TimeSlots| ==> TimeSlots[i] != TimeSlots[j]
  {
  }
}
