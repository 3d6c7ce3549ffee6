/** The deep-sky-object tables: the Messier coordinates, the objects a
    zenith plot marks, the OpenNGC type codes and the legend categories. */
module Dsos {
  import opened Wrappers

  /** A dictionary written as a literal: its entries in the order written;
      a key written twice keeps its last value. */
  function ToMap<K, V>(es: seq<(K, V)>): map<K, V>
    decreases |es|
  {
    if es == [] then map[] else ToMap(es[..|es| - 1])[es[|es| - 1].0 := es[|es| - 1].1]
  }

  lemma {:induction false} KeyOfEntryInMap<K, V>(es: seq<(K, V)>, i: int)
    requires 0 <= i < |es|
    ensures es[i].0 in ToMap(es)
    decreases |es|
  {
    if i < |es| - 1 {
      KeyOfEntryInMap(es[..|es| - 1], i);
    }
  }

  /** Every value of the dictionary is the value of one of its entries. */
  lemma {:induction false} MapValueFromEntry<K, V>(es: seq<(K, V)>, k: K)
    requires k in ToMap(es)
    ensures exists i :: 0 <= i < |es| && es[i] == (k, ToMap(es)[k])
    decreases |es|
  {
    var last := |es| - 1;
    if es[last].0 != k {
      MapValueFromEntry(es[..last], k);
      var i :| 0 <= i < last && es[..last][i] == (k, ToMap(es[..last])[k]);
      assert es[i] == (k, ToMap(es)[k]);
    }
  }

  /** A valid equatorial position: right ascension in hours, declination in
      degrees. */
  predicate InRange(c: (real, real))
  {
    0.0 <= c.0 < 24.0 && -90.0 <= c.1 <= 90.0
  }

  // The `messier` dictionary literal, its 109 entries in the order written,
  // in blocks of ten (M102 has no entry).

  const MessierBlock0: seq<(string, (real, real))> := [
    ("M1", (5.575547, 22.014472)),
    ("M2", (21.557503, 0.823306)),
    ("M3", (13.703119, 28.375444)),
    ("M4", (16.393167, -25.474472)),
    ("M5", (15.309375, 2.082694)),
    ("M6", (17.672431, -31.745833)),
    ("M7", (17.89755, -33.207167)),
    ("M8", (18.061464, -23.619833)),
    ("M9", (17.319939, -17.48375)),
    ("M10", (16.952497, -3.900667))
  ]

  lemma MessierBlock0InRange()
    ensures forall i :: 0 <= i < |MessierBlock0| ==> InRange(MessierBlock0[i].1)
  {
  }

  const MessierBlock1: seq<(string, (real, real))> := [
    ("M11", (18.851664, -5.729972)),
    ("M12", (16.787367, -0.052167)),
    ("M13", (16.694897, 36.461306)),
    ("M14", (17.626711, -2.754083)),
    ("M15", (21.49955, 12.166833)),
    ("M16", (18.313381, -12.192778)),
    ("M17", (18.346419, -15.828472)),
    ("M18", (18.332914, -16.898028)),
    ("M19", (17.0438, -25.732056)),
    ("M20", (18.045031, -21.028111))
  ]

  lemma MessierBlock1InRange()
    ensures forall i :: 0 <= i < |MessierBlock1| ==> InRange(MessierBlock1[i].1)
  {
  }

  const MessierBlock2: seq<(string, (real, real))> := [
    ("M21", (18.070403, -21.509944)),
    ("M22", (18.606722, -22.096583)),
    ("M23", (17.951325, -17.014667)),
    ("M24", (18.282256, -17.485444)),
    ("M25", (18.529658, -18.885056)),
    ("M26", (18.755183, -8.616389)),
    ("M27", (19.993439, 22.721028)),
    ("M28", (18.409136, -23.130167)),
    ("M29", (20.399381, 38.507667)),
    ("M30", (21.672783, -22.820917))
  ]

  lemma MessierBlock2InRange()
    ensures forall i :: 0 <= i < |MessierBlock2| ==> InRange(MessierBlock2[i].1)
  {
  }

  const MessierBlock3: seq<(string, (real, real))> := [
    ("M31", (0.712319, 41.269056)),
    ("M32", (0.711619, 40.865278)),
    ("M33", (1.564136, 30.660222)),
    ("M34", (2.702056, 42.746139)),
    ("M35", (6.151406, 24.338639)),
    ("M36", (5.604928, 34.14075)),
    ("M37", (5.871764, 32.553)),
    ("M38", (5.478469, 35.854917)),
    ("M39", (21.530089, 48.438167)),
    ("M40", (12.371139, 58.084444))
  ]

  lemma MessierBlock3InRange()
    ensures forall i :: 0 <= i < |MessierBlock3| ==> InRange(MessierBlock3[i].1)
  {
  }

  const MessierBlock4: seq<(string, (real, real))> := [
    ("M41", (6.76665, -19.245778)),
    ("M42", (5.587911, -4.610333)),
    ("M43", (5.59205, -4.732528)),
    ("M44", (8.672833, 19.672056)),
    ("M45", (3.791278, 24.105278)),
    ("M46", (7.696339, -13.19)),
    ("M47", (7.609728, -13.517389)),
    ("M48", (8.228661, -4.249556)),
    ("M49", (12.496322, 8.000472)),
    ("M50", (7.044575, -7.635972))
  ]

  lemma MessierBlock4InRange()
    ensures forall i :: 0 <= i < |MessierBlock4| ==> InRange(MessierBlock4[i].1)
  {
  }

  const MessierBlock5: seq<(string, (real, real))> := [
    ("M51", (13.497975, 47.195167)),
    ("M52", (23.413444, 61.593167)),
    ("M53", (13.215342, 18.169111)),
    ("M54", (18.917575, -29.5215)),
    ("M55", (19.6665, -29.037917)),
    ("M56", (19.276531, 30.1845)),
    ("M57", (18.893058, 33.028583)),
    ("M58", (12.628756, 11.818194)),
    ("M59", (12.700622, 11.647028)),
    ("M60", (12.727772, 11.552694))
  ]

  lemma MessierBlock5InRange()
    ensures forall i :: 0 <= i < |MessierBlock5| ==> InRange(MessierBlock5[i].1)
  {
  }

  const MessierBlock6: seq<(string, (real, real))> := [
    ("M61", (12.36525, 4.473639)),
    ("M62", (17.020167, -29.887639)),
    ("M63", (13.263703, 42.029278)),
    ("M64", (12.945456, 21.682972)),
    ("M65", (11.315533, 13.092361)),
    ("M66", (11.337489, 12.991528)),
    ("M67", (8.855592, 11.811944)),
    ("M68", (12.657781, -25.256972)),
    ("M69", (18.523119, -31.652028)),
    ("M70", (18.720178, -31.708111))
  ]

  lemma MessierBlock6InRange()
    ensures forall i :: 0 <= i < |MessierBlock6| ==> InRange(MessierBlock6[i].1)
  {
  }

  const MessierBlock7: seq<(string, (real, real))> := [
    ("M71", (19.896142, 18.778389)),
    ("M72", (20.891086, -11.462944)),
    ("M73", (20.982214, -11.3645)),
    ("M74", (1.611597, 15.783667)),
    ("M75", (20.101344, -20.077778)),
    ("M76", (1.705469, 51.575472)),
    ("M77", (2.711308, 0.013278)),
    ("M78", (5.779394, 0.079306)),
    ("M79", (5.402942, -23.475778)),
    ("M80", (16.284031, -21.024889))
  ]

  lemma MessierBlock7InRange()
    ensures forall i :: 0 <= i < |MessierBlock7| ==> InRange(MessierBlock7[i].1)
  {
  }

  const MessierBlock8: seq<(string, (real, real))> := [
    ("M81", (9.925881, 69.065306)),
    ("M82", (9.931314, 69.679389)),
    ("M83", (13.616931, -28.134583)),
    ("M84", (12.417706, 12.886972)),
    ("M85", (12.423364, 18.1915)),
    ("M86", (12.436594, 12.946222)),
    ("M87", (12.513728, 12.391111)),
    ("M88", (12.5331, 14.420389)),
    ("M89", (12.594392, 12.556333)),
    ("M90", (12.613831, 13.162944))
  ]

  lemma MessierBlock8InRange()
    ensures forall i :: 0 <= i < |MessierBlock8| ==> InRange(MessierBlock8[i].1)
  {
  }

  const MessierBlock9: seq<(string, (real, real))> := [
    ("M91", (12.590681, 14.496333)),
    ("M92", (17.285353, 43.136528)),
    ("M93", (7.741453, -22.146917)),
    ("M94", (12.848072, 41.120444)),
    ("M95", (10.732694, 11.703806)),
    ("M96", (10.779372, 11.819944)),
    ("M97", (11.246586, 55.019028)),
    ("M98", (12.230081, 14.900333)),
    ("M99", (12.313778, 14.4165)),
    ("M100", (12.381897, 15.821806))
  ]

  lemma MessierBlock9InRange()
    ensures forall i :: 0 <= i < |MessierBlock9| ==> InRange(MessierBlock9[i].1)
  {
  }

  const MessierBlock10: seq<(string, (real, real))> := [
    ("M101", (14.053483, 54.348944)),
    ("M103", (1.556058, 60.658)),
    ("M104", (12.666508, -10.376944)),
    ("M105", (10.797108, 12.581611)),
    ("M106", (12.315972, 47.303972)),
    ("M107", (16.5422, -12.946361)),
    ("M108", (11.191936, 55.674111)),
    ("M109", (11.959994, 53.374528)),
    ("M110", (0.6728, 41.685306))
  ]

  lemma MessierBlock10InRange()
    ensures forall i :: 0 <= i < |MessierBlock10| ==> InRange(MessierBlock10[i].1)
  {
  }

  const MessierEntries: seq<(string, (real, real))> :=
    MessierBlock0 +
    MessierBlock1 +
    MessierBlock2 +
    MessierBlock3 +
    MessierBlock4 +
    MessierBlock5 +
    MessierBlock6 +
    MessierBlock7 +
    MessierBlock8 +
    MessierBlock9 +
    MessierBlock10

  /** `messier`: right ascension and declination by designation. */
  const Messier: map<string, (real, real)> := ToMap(MessierEntries)

  /** Every Messier coordinate is a valid equatorial position. */
  lemma MessierInRange()
    ensures forall id :: id in Messier ==> InRange(Messier[id])
  {
    MessierBlock0InRange();
    MessierBlock1InRange();
    MessierBlock2InRange();
    MessierBlock3InRange();
    MessierBlock4InRange();
    MessierBlock5InRange();
    MessierBlock6InRange();
    MessierBlock7InRange();
    MessierBlock8InRange();
    MessierBlock9InRange();
    MessierBlock10InRange();
    forall id | id in Messier ensures InRange(Messier[id]) {
      MapValueFromEntry(MessierEntries, id);
    }
  }

  /** `ZENITH_BASE`: the Messier objects a zenith plot marks, in order. */
  const ZenithBase: seq<string> :=
    ["M5", "M13", "M23", "M31", "M42", "M44", "M45", "M47", "M51", "M55", "M83", "M93", "M104"]

  /** Every object a zenith plot marks has coordinates, so looking it up
      and unpacking the pair never fails. */
  lemma ZenithBaseInMessier()
    ensures forall i :: 0 <= i < |ZenithBase| ==> ZenithBase[i] in Messier
  {
    KeyOfEntryInMap(MessierEntries, 4);
    KeyOfEntryInMap(MessierEntries, 12);
    KeyOfEntryInMap(MessierEntries, 22);
    KeyOfEntryInMap(MessierEntries, 30);
    KeyOfEntryInMap(MessierEntries, 41);
    KeyOfEntryInMap(MessierEntries, 43);
    KeyOfEntryInMap(MessierEntries, 44);
    KeyOfEntryInMap(MessierEntries, 46);
    KeyOfEntryInMap(MessierEntries, 50);
    KeyOfEntryInMap(MessierEntries, 54);
    KeyOfEntryInMap(MessierEntries, 82);
    KeyOfEntryInMap(MessierEntries, 92);
    KeyOfEntryInMap(MessierEntries, 102);
  }

  /** `DsoType`: the OpenNGC object types. */
  datatype DsoType =
    | Star
    | DoubleStar
    | AssociationOfStars
    | OpenCluster
    | GlobularCluster
    | Galaxy
    | GalaxyPair
    | GalaxyTriplet
    | GroupOfGalaxies
    | Nebula
    | PlanetaryNebula
    | EmissionNebula
    | StarClusterNebula
    | ReflectionNebula
    | DarkNebula
    | HiiIonizedRegion
    | SupernovaRemnant
    | NovaStar
    | Nonexistent
    | Unknown
    | DuplicateRecord

  /** The enumeration value of each type. */
  function Value(t: DsoType): string
  {
    match t
    case Star => "Star"
    case DoubleStar => "Double star"
    case AssociationOfStars => "Association of stars"
    case OpenCluster => "Open Cluster"
    case GlobularCluster => "Globular Cluster"
    case Galaxy => "Galaxy"
    case GalaxyPair => "Galaxy Pair"
    case GalaxyTriplet => "Galaxy Triplet"
    case GroupOfGalaxies => "Group of galaxies"
    case Nebula => "Nebula"
    case PlanetaryNebula => "Planetary Nebula"
    case EmissionNebula => "Emission Nebula"
    case StarClusterNebula => "Star cluster + Nebula"
    case ReflectionNebula => "Reflection Nebula"
    case DarkNebula => "Dark Nebula"
    case HiiIonizedRegion => "HII Ionized region"
    case SupernovaRemnant => "Supernova remnant"
    case NovaStar => "Nova star"
    case Nonexistent => "Nonexistent object"
    case Unknown => "Object of other/unknown type"
    case DuplicateRecord => "Duplicated record"
  }

  /** `DsoType(s)`: the type whose value is s, if any. */
  function FromValue(s: string): (r: Option<DsoType>)
    ensures r.Some? ==> Value(r.value) == s
  {
    if s == "Star" then Some(Star)
    else if s == "Double star" then Some(DoubleStar)
    else if s == "Association of stars" then Some(AssociationOfStars)
    else if s == "Open Cluster" then Some(OpenCluster)
    else if s == "Globular Cluster" then Some(GlobularCluster)
    else if s == "Galaxy" then Some(Galaxy)
    else if s == "Galaxy Pair" then Some(GalaxyPair)
    else if s == "Galaxy Triplet" then Some(GalaxyTriplet)
    else if s == "Group of galaxies" then Some(GroupOfGalaxies)
    else if s == "Nebula" then Some(Nebula)
    else if s == "Planetary Nebula" then Some(PlanetaryNebula)
    else if s == "Emission Nebula" then Some(EmissionNebula)
    else if s == "Star cluster + Nebula" then Some(StarClusterNebula)
    else if s == "Reflection Nebula" then Some(ReflectionNebula)
    else if s == "Dark Nebula" then Some(DarkNebula)
    else if s == "HII Ionized region" then Some(HiiIonizedRegion)
    else if s == "Supernova remnant" then Some(SupernovaRemnant)
    else if s == "Nova star" then Some(NovaStar)
    else if s == "Nonexistent object" then Some(Nonexistent)
    else if s == "Object of other/unknown type" then Some(Unknown)
    else if s == "Duplicated record" then Some(DuplicateRecord)
    else None
  }

  /** Distinct types have distinct values, so the value names the type. */
  lemma ValueRoundTrip(t: DsoType)
    ensures FromValue(Value(t)) == Some(t)
  {
    if t.Star? || t.DoubleStar? || t.AssociationOfStars? || t.OpenCluster? || t.GlobularCluster? {
      ValueRoundTripGroup1(t);
    } else if t.Galaxy? || t.GalaxyPair? || t.GalaxyTriplet? || t.GroupOfGalaxies? || t.Nebula? {
      ValueRoundTripGroup2(t);
    } else if t.PlanetaryNebula? || t.EmissionNebula? || t.StarClusterNebula? || t.ReflectionNebula? || t.DarkNebula? {
      ValueRoundTripGroup3(t);
    } else if t.HiiIonizedRegion? || t.SupernovaRemnant? || t.NovaStar? {
      ValueRoundTripGroup4(t);
    } else {
      ValueRoundTripGroup5(t);
    }
  }

  // ValueRoundTrip for the types in declaration order, a few at a time;
  // each value differs from the values `FromValue` tests before it.
  lemma ValueRoundTripGroup1(t: DsoType)
    requires t.Star? || t.DoubleStar? || t.AssociationOfStars? || t.OpenCluster? || t.GlobularCluster?
    ensures FromValue(Value(t)) == Some(t)
  {
    match t
    case Star =>
    case DoubleStar =>
      assert "Double star" != "Star";
    case AssociationOfStars =>
      assert "Association of stars" != "Star" && "Association of stars" != "Double star";
    case OpenCluster =>
      assert "Open Cluster" != "Star" && "Open Cluster" != "Double star" &&
             "Open Cluster" != "Association of stars";
    case GlobularCluster =>
      assert "Globular Cluster" != "Star" && "Globular Cluster" != "Double star" &&
             "Globular Cluster" != "Association of stars" && "Globular Cluster" != "Open Cluster";
  }

  lemma ValueRoundTripGroup2(t: DsoType)
    requires t.Galaxy? || t.GalaxyPair? || t.GalaxyTriplet? || t.GroupOfGalaxies? || t.Nebula?
    ensures FromValue(Value(t)) == Some(t)
  {
    match t
    case Galaxy =>
      assert "Galaxy" != "Star" && "Galaxy" != "Double star" && "Galaxy" != "Association of stars" &&
             "Galaxy" != "Open Cluster" && "Galaxy" != "Globular Cluster";
    case GalaxyPair =>
      assert "Galaxy Pair" != "Star" && "Galaxy Pair" != "Double star" &&
             "Galaxy Pair" != "Association of stars" && "Galaxy Pair" != "Open Cluster" &&
             "Galaxy Pair" != "Globular Cluster" && "Galaxy Pair" != "Galaxy";
    case GalaxyTriplet =>
      assert "Galaxy Triplet" != "Star" && "Galaxy Triplet" != "Double star" &&
             "Galaxy Triplet" != "Association of stars" && "Galaxy Triplet" != "Open Cluster" &&
             "Galaxy Triplet" != "Globular Cluster" && "Galaxy Triplet" != "Galaxy" &&
             "Galaxy Triplet" != "Galaxy Pair";
    case GroupOfGalaxies =>
      assert "Group of galaxies" != "Star" && "Group of galaxies" != "Double star" &&
             "Group of galaxies" != "Association of stars" && "Group of galaxies" != "Open Cluster" &&
             "Group of galaxies" != "Globular Cluster" && "Group of galaxies" != "Galaxy" &&
             "Group of galaxies" != "Galaxy Pair" && "Group of galaxies" != "Galaxy Triplet";
    case Nebula =>
      assert "Nebula" != "Star" && "Nebula" != "Double star" && "Nebula" != "Association of stars" &&
             "Nebula" != "Open Cluster" && "Nebula" != "Globular Cluster" && "Nebula" != "Galaxy" &&
             "Nebula" != "Galaxy Pair" && "Nebula" != "Galaxy Triplet" &&
             "Nebula" != "Group of galaxies";
  }

  lemma ValueRoundTripGroup3(t: DsoType)
    requires t.PlanetaryNebula? || t.EmissionNebula? || t.StarClusterNebula? || t.ReflectionNebula? || t.DarkNebula?
    ensures FromValue(Value(t)) == Some(t)
  {
    match t
    case PlanetaryNebula =>
      assert "Planetary Nebula" != "Star" && "Planetary Nebula" != "Double star" &&
             "Planetary Nebula" != "Association of stars" && "Planetary Nebula" != "Open Cluster" &&
             "Planetary Nebula" != "Globular Cluster" && "Planetary Nebula" != "Galaxy" &&
             "Planetary Nebula" != "Galaxy Pair" && "Planetary Nebula" != "Galaxy Triplet" &&
             "Planetary Nebula" != "Group of galaxies" && "Planetary Nebula" != "Nebula";
    case EmissionNebula =>
      assert "Emission Nebula" != "Star" && "Emission Nebula" != "Double star" &&
             "Emission Nebula" != "Association of stars" && "Emission Nebula" != "Open Cluster" &&
             "Emission Nebula" != "Globular Cluster" && "Emission Nebula" != "Galaxy" &&
             "Emission Nebula" != "Galaxy Pair" && "Emission Nebula" != "Galaxy Triplet" &&
             "Emission Nebula" != "Group of galaxies" && "Emission Nebula" != "Nebula" &&
             "Emission Nebula" != "Planetary Nebula";
    case StarClusterNebula =>
      assert "Star cluster + Nebula" != "Star" && "Star cluster + Nebula" != "Double star" &&
             "Star cluster + Nebula" != "Association of stars" &&
             "Star cluster + Nebula" != "Open Cluster" && "Star cluster + Nebula" != "Globular Cluster" &&
             "Star cluster + Nebula" != "Galaxy" && "Star cluster + Nebula" != "Galaxy Pair" &&
             "Star cluster + Nebula" != "Galaxy Triplet" &&
             "Star cluster + Nebula" != "Group of galaxies" && "Star cluster + Nebula" != "Nebula" &&
             "Star cluster + Nebula" != "Planetary Nebula" &&
             "Star cluster + Nebula" != "Emission Nebula";
    case ReflectionNebula =>
      assert "Reflection Nebula" != "Star" && "Reflection Nebula" != "Double star" &&
             "Reflection Nebula" != "Association of stars" && "Reflection Nebula" != "Open Cluster" &&
             "Reflection Nebula" != "Globular Cluster" && "Reflection Nebula" != "Galaxy" &&
             "Reflection Nebula" != "Galaxy Pair" && "Reflection Nebula" != "Galaxy Triplet" &&
             "Reflection Nebula" != "Group of galaxies" && "Reflection Nebula" != "Nebula" &&
             "Reflection Nebula" != "Planetary Nebula" && "Reflection Nebula" != "Emission Nebula" &&
             "Reflection Nebula" != "Star cluster + Nebula";
    case DarkNebula =>
      assert "Dark Nebula" != "Star" && "Dark Nebula" != "Double star" &&
             "Dark Nebula" != "Association of stars" && "Dark Nebula" != "Open Cluster" &&
             "Dark Nebula" != "Globular Cluster" && "Dark Nebula" != "Galaxy" &&
             "Dark Nebula" != "Galaxy Pair" && "Dark Nebula" != "Galaxy Triplet" &&
             "Dark Nebula" != "Group of galaxies" && "Dark Nebula" != "Nebula" &&
             "Dark Nebula" != "Planetary Nebula" && "Dark Nebula" != "Emission Nebula" &&
             "Dark Nebula" != "Star cluster + Nebula" && "Dark Nebula" != "Reflection Nebula";
  }

  lemma ValueRoundTripGroup4(t: DsoType)
    requires t.HiiIonizedRegion? || t.SupernovaRemnant? || t.NovaStar?
    ensures FromValue(Value(t)) == Some(t)
  {
    match t
    case HiiIonizedRegion =>
      assert "HII Ionized region" != "Star" && "HII Ionized region" != "Double star" &&
             "HII Ionized region" != "Association of stars" && "HII Ionized region" != "Open Cluster" &&
             "HII Ionized region" != "Globular Cluster" && "HII Ionized region" != "Galaxy" &&
             "HII Ionized region" != "Galaxy Pair" && "HII Ionized region" != "Galaxy Triplet" &&
             "HII Ionized region" != "Group of galaxies" && "HII Ionized region" != "Nebula" &&
             "HII Ionized region" != "Planetary Nebula" && "HII Ionized region" != "Emission Nebula" &&
             "HII Ionized region" != "Star cluster + Nebula" &&
             "HII Ionized region" != "Reflection Nebula" && "HII Ionized region" != "Dark Nebula";
    case SupernovaRemnant =>
      assert "Supernova remnant" != "Star" && "Supernova remnant" != "Double star" &&
             "Supernova remnant" != "Association of stars" && "Supernova remnant" != "Open Cluster" &&
             "Supernova remnant" != "Globular Cluster" && "Supernova remnant" != "Galaxy" &&
             "Supernova remnant" != "Galaxy Pair" && "Supernova remnant" != "Galaxy Triplet" &&
             "Supernova remnant" != "Group of galaxies" && "Supernova remnant" != "Nebula" &&
             "Supernova remnant" != "Planetary Nebula" && "Supernova remnant" != "Emission Nebula" &&
             "Supernova remnant" != "Star cluster + Nebula" &&
             "Supernova remnant" != "Reflection Nebula" && "Supernova remnant" != "Dark Nebula" &&
             "Supernova remnant" != "HII Ionized region";
    case NovaStar =>
      assert "Nova star" != "Star" && "Nova star" != "Double star" &&
             "Nova star" != "Association of stars" && "Nova star" != "Open Cluster" &&
             "Nova star" != "Globular Cluster" && "Nova star" != "Galaxy" &&
             "Nova star" != "Galaxy Pair" && "Nova star" != "Galaxy Triplet" &&
             "Nova star" != "Group of galaxies" && "Nova star" != "Nebula" &&
             "Nova star" != "Planetary Nebula" && "Nova star" != "Emission Nebula" &&
             "Nova star" != "Star cluster + Nebula" && "Nova star" != "Reflection Nebula" &&
             "Nova star" != "Dark Nebula" && "Nova star" != "HII Ionized region" &&
             "Nova star" != "Supernova remnant";
  }

  lemma ValueRoundTripGroup5(t: DsoType)
    requires t.Nonexistent? || t.Unknown? || t.DuplicateRecord?
    ensures FromValue(Value(t)) == Some(t)
  {
    match t
    case Nonexistent =>
      assert "Nonexistent object" != "Star" && "Nonexistent object" != "Double star" &&
             "Nonexistent object" != "Association of stars" && "Nonexistent object" != "Open Cluster" &&
             "Nonexistent object" != "Globular Cluster" && "Nonexistent object" != "Galaxy" &&
             "Nonexistent object" != "Galaxy Pair" && "Nonexistent object" != "Galaxy Triplet" &&
             "Nonexistent object" != "Group of galaxies" && "Nonexistent object" != "Nebula" &&
             "Nonexistent object" != "Planetary Nebula" && "Nonexistent object" != "Emission Nebula" &&
             "Nonexistent object" != "Star cluster + Nebula" &&
             "Nonexistent object" != "Reflection Nebula" && "Nonexistent object" != "Dark Nebula" &&
             "Nonexistent object" != "HII Ionized region" &&
             "Nonexistent object" != "Supernova remnant" && "Nonexistent object" != "Nova star";
    case Unknown =>
      assert "Object of other/unknown type" != "Star" &&
             "Object of other/unknown type" != "Double star" &&
             "Object of other/unknown type" != "Association of stars" &&
             "Object of other/unknown type" != "Open Cluster" &&
             "Object of other/unknown type" != "Globular Cluster" &&
             "Object of other/unknown type" != "Galaxy" &&
             "Object of other/unknown type" != "Galaxy Pair" &&
             "Object of other/unknown type" != "Galaxy Triplet" &&
             "Object of other/unknown type" != "Group of galaxies" &&
             "Object of other/unknown type" != "Nebula" &&
             "Object of other/unknown type" != "Planetary Nebula" &&
             "Object of other/unknown type" != "Emission Nebula" &&
             "Object of other/unknown type" != "Star cluster + Nebula" &&
             "Object of other/unknown type" != "Reflection Nebula" &&
             "Object of other/unknown type" != "Dark Nebula" &&
             "Object of other/unknown type" != "HII Ionized region" &&
             "Object of other/unknown type" != "Supernova remnant" &&
             "Object of other/unknown type" != "Nova star" &&
             "Object of other/unknown type" != "Nonexistent object";
    case DuplicateRecord =>
      assert "Duplicated record" != "Star" && "Duplicated record" != "Double star" &&
             "Duplicated record" != "Association of stars" && "Duplicated record" != "Open Cluster" &&
             "Duplicated record" != "Globular Cluster" && "Duplicated record" != "Galaxy" &&
             "Duplicated record" != "Galaxy Pair" && "Duplicated record" != "Galaxy Triplet" &&
             "Duplicated record" != "Group of galaxies" && "Duplicated record" != "Nebula" &&
             "Duplicated record" != "Planetary Nebula" && "Duplicated record" != "Emission Nebula" &&
             "Duplicated record" != "Star cluster + Nebula" &&
             "Duplicated record" != "Reflection Nebula" && "Duplicated record" != "Dark Nebula" &&
             "Duplicated record" != "HII Ionized region" && "Duplicated record" != "Supernova remnant" &&
             "Duplicated record" != "Nova star" && "Duplicated record" != "Nonexistent object" &&
             "Duplicated record" != "Object of other/unknown type";
  }

  /** The `ONGC_TYPE` dictionary literal: each type with its OpenNGC code,
      in the order written. */
  const OngcTypeEntries: seq<(DsoType, string)> :=
    [
      (OpenCluster, "OCl"),
      (GlobularCluster, "GCl"),
      (Galaxy, "G"),
      (GalaxyPair, "GPair"),
      (GalaxyTriplet, "GTrpl"),
      (GroupOfGalaxies, "GGroup"),
      (Nebula, "Neb"),
      (PlanetaryNebula, "PN"),
      (EmissionNebula, "EmN"),
      (StarClusterNebula, "Cl+N"),
      (ReflectionNebula, "RfN"),
      (Star, "*"),
      (DoubleStar, "**"),
      (AssociationOfStars, "*Ass"),
      (HiiIonizedRegion, "HII"),
      (DarkNebula, "DrkN"),
      (SupernovaRemnant, "SNR"),
      (NovaStar, "Nova"),
      (Nonexistent, "NonEx"),
      (Unknown, "Other"),
      (DuplicateRecord, "Dup")
    ]

  /** `ONGC_TYPE`: the OpenNGC code of each type. */
  const OngcType: map<DsoType, string> := ToMap(OngcTypeEntries)

  /** No two entries share a code. */
  lemma OngcCodesDistinct()
    ensures forall i, j :: 0 <= i < j < |OngcTypeEntries| ==> OngcTypeEntries[i].1 != OngcTypeEntries[j].1
  {
  }

  /** Every type has a code. */
  lemma OngcTypeTotal()
    ensures forall t :: t in OngcType
  {
    forall t ensures t in OngcType {
      if t.Star? || t.DoubleStar? || t.AssociationOfStars? || t.OpenCluster? ||
         t.GlobularCluster? || t.Galaxy? || t.GalaxyPair? {
        OngcTypeTotalGroup1(t);
      } else if t.GalaxyTriplet? || t.GroupOfGalaxies? || t.Nebula? || t.PlanetaryNebula? ||
                t.EmissionNebula? || t.StarClusterNebula? || t.ReflectionNebula? {
        OngcTypeTotalGroup2(t);
      } else {
        OngcTypeTotalGroup3(t);
      }
    }
  }

  // OngcTypeTotal for the types in declaration order, seven at a time.
  lemma OngcTypeTotalGroup1(t: DsoType)
    requires t.Star? || t.DoubleStar? || t.AssociationOfStars? || t.OpenCluster? ||
             t.GlobularCluster? || t.Galaxy? || t.GalaxyPair?
    ensures t in OngcType
  {
    match t
    case Star => KeyOfEntryInMap(OngcTypeEntries, 11);
    case DoubleStar => KeyOfEntryInMap(OngcTypeEntries, 12);
    case AssociationOfStars => KeyOfEntryInMap(OngcTypeEntries, 13);
    case OpenCluster => KeyOfEntryInMap(OngcTypeEntries, 0);
    case GlobularCluster => KeyOfEntryInMap(OngcTypeEntries, 1);
    case Galaxy => KeyOfEntryInMap(OngcTypeEntries, 2);
    case GalaxyPair => KeyOfEntryInMap(OngcTypeEntries, 3);
  }

  lemma OngcTypeTotalGroup2(t: DsoType)
    requires t.GalaxyTriplet? || t.GroupOfGalaxies? || t.Nebula? || t.PlanetaryNebula? ||
             t.EmissionNebula? || t.StarClusterNebula? || t.ReflectionNebula?
    ensures t in OngcType
  {
    match t
    case GalaxyTriplet => KeyOfEntryInMap(OngcTypeEntries, 4);
    case GroupOfGalaxies => KeyOfEntryInMap(OngcTypeEntries, 5);
    case Nebula => KeyOfEntryInMap(OngcTypeEntries, 6);
    case PlanetaryNebula => KeyOfEntryInMap(OngcTypeEntries, 7);
    case EmissionNebula => KeyOfEntryInMap(OngcTypeEntries, 8);
    case StarClusterNebula => KeyOfEntryInMap(OngcTypeEntries, 9);
    case ReflectionNebula => KeyOfEntryInMap(OngcTypeEntries, 10);
  }

  lemma OngcTypeTotalGroup3(t: DsoType)
    requires t.DarkNebula? || t.HiiIonizedRegion? || t.SupernovaRemnant? || t.NovaStar? ||
             t.Nonexistent? || t.Unknown? || t.DuplicateRecord?
    ensures t in OngcType
  {
    match t
    case DarkNebula => KeyOfEntryInMap(OngcTypeEntries, 15);
    case HiiIonizedRegion => KeyOfEntryInMap(OngcTypeEntries, 14);
    case SupernovaRemnant => KeyOfEntryInMap(OngcTypeEntries, 16);
    case NovaStar => KeyOfEntryInMap(OngcTypeEntries, 17);
    case Nonexistent => KeyOfEntryInMap(OngcTypeEntries, 18);
    case Unknown => KeyOfEntryInMap(OngcTypeEntries, 19);
    case DuplicateRecord => KeyOfEntryInMap(OngcTypeEntries, 20);
  }

  /** Two entries never name the same type. */
  lemma OngcTypesDistinct()
    ensures forall i, j :: 0 <= i < j < |OngcTypeEntries| ==> OngcTypeEntries[i].0 != OngcTypeEntries[j].0
  {
  }

  ghost predicate DistinctKeys<K, V>(es: seq<(K, V)>)
  {
    forall i, j :: 0 <= i < j < |es| ==> es[i].0 != es[j].0
  }

  /** In a literal whose keys are distinct, each key maps to its own value. */
  lemma {:induction false} ToMapAt<K, V>(es: seq<(K, V)>, i: int)
    requires DistinctKeys(es) && 0 <= i < |es|
    ensures es[i].0 in ToMap(es) && ToMap(es)[es[i].0] == es[i].1
    decreases |es|
  {
    if i < |es| - 1 {
      assert DistinctKeys(es[..|es| - 1]);
      ToMapAt(es[..|es| - 1], i);
    }
  }

  /** `{v: k.value for k, v in ONGC_TYPE.items()}`: the items in order, each
      turned round; a repeated code would keep its last type. */
  function Inverted(es: seq<(DsoType, string)>): (r: seq<(string, string)>)
    ensures |r| == |es|
    ensures forall i :: 0 <= i < |es| ==> r[i] == (es[i].1, Value(es[i].0))
  {
    seq(|es|, i requires 0 <= i < |es| => (es[i].1, Value(es[i].0)))
  }

  /** `ONGC_TYPE_MAP`: from OpenNGC code to type value. */
  const OngcTypeMap: map<string, string> := ToMap(Inverted(OngcTypeEntries))

  /** From a type to its code and back gives the type's value. */
  lemma OngcTypeRoundTrip(t: DsoType)
    ensures t in OngcType && OngcType[t] in OngcTypeMap
    ensures OngcTypeMap[OngcType[t]] == Value(t)
  {
    OngcTypeTotal();
    MapValueFromEntry(OngcTypeEntries, t);
    var i :| 0 <= i < |OngcTypeEntries| && OngcTypeEntries[i] == (t, OngcType[t]);
    OngcCodesDistinct();
    ToMapAt(Inverted(OngcTypeEntries), i);
  }

  /** From a code to its type and back gives the code. */
  lemma OngcCodeRoundTrip(c: string)
    requires c in OngcTypeMap
    ensures FromValue(OngcTypeMap[c]).Some? && FromValue(OngcTypeMap[c]).value in OngcType
    ensures OngcType[FromValue(OngcTypeMap[c]).value] == c
  {
    var inv := Inverted(OngcTypeEntries);
    MapValueFromEntry(inv, c);
    var i :| 0 <= i < |inv| && inv[i] == (c, OngcTypeMap[c]);
    ValueRoundTrip(OngcTypeEntries[i].0);
    OngcTypesDistinct();
    ToMapAt(OngcTypeEntries, i);
  }

  /** No two types share a code. */
  lemma OngcTypeInjective(t1: DsoType, t2: DsoType)
    ensures t1 in OngcType && t2 in OngcType
    ensures OngcType[t1] == OngcType[t2] ==> t1 == t2
  {
    OngcTypeRoundTrip(t1);
    OngcTypeRoundTrip(t2);
    ValueRoundTrip(t1);
    ValueRoundTrip(t2);
  }

  /** `DEFAULT_DSO_TYPES`: the types plotted on maps by default. */
  const DefaultDsoTypes: seq<DsoType> := [
    OpenCluster, GlobularCluster,
    Galaxy, GalaxyPair, GalaxyTriplet, GroupOfGalaxies,
    Nebula, PlanetaryNebula, EmissionNebula, StarClusterNebula, ReflectionNebula,
    AssociationOfStars
  ]

  /** The groups the type table is written in: star clusters, galaxies,
      nebulas, stars, and the others. */
  datatype Family = Cluster | GalaxyFamily | NebulaFamily | Stellar | OtherFamily

  function FamilyOf(t: DsoType): Family
  {
    match t
    case Star => Stellar
    case DoubleStar => Stellar
    case AssociationOfStars => Stellar
    case OpenCluster => Cluster
    case GlobularCluster => Cluster
    case Galaxy => GalaxyFamily
    case GalaxyPair => GalaxyFamily
    case GalaxyTriplet => GalaxyFamily
    case GroupOfGalaxies => GalaxyFamily
    case Nebula => NebulaFamily
    case PlanetaryNebula => NebulaFamily
    case EmissionNebula => NebulaFamily
    case StarClusterNebula => NebulaFamily
    case ReflectionNebula => NebulaFamily
    case DarkNebula => OtherFamily
    case HiiIonizedRegion => OtherFamily
    case SupernovaRemnant => OtherFamily
    case NovaStar => OtherFamily
    case Nonexistent => OtherFamily
    case Unknown => OtherFamily
    case DuplicateRecord => OtherFamily
  }

  /** The default types are distinct, all have codes, and are exactly the
      clusters, galaxies and nebulas plus associations of stars; in
      particular double stars are not among them. */
  lemma DefaultDsoTypesShape()
    ensures forall i, j :: 0 <= i < j < |DefaultDsoTypes| ==> DefaultDsoTypes[i] != DefaultDsoTypes[j]
    ensures forall i :: 0 <= i < |DefaultDsoTypes| ==> DefaultDsoTypes[i] in OngcType
    ensures forall t :: t in DefaultDsoTypes <==>
      FamilyOf(t) in {Cluster, GalaxyFamily, NebulaFamily} || t == AssociationOfStars
    ensures DoubleStar !in DefaultDsoTypes
  {
    OngcTypeTotal();
    forall t ensures t in DefaultDsoTypes <==> FamilyOf(t) in {Cluster, GalaxyFamily, NebulaFamily} || t == AssociationOfStars {
      DefaultDsoTypesFamily(t);
    }
  }

  lemma DefaultDsoTypesFamily(t: DsoType)
    ensures t in DefaultDsoTypes <==> FamilyOf(t) in {Cluster, GalaxyFamily, NebulaFamily} || t == AssociationOfStars
  {
  }

  /** `LEGEND_LABELS`: the legend category of a type. */
  const LegendLabels: map<DsoType, string> :=
    map[
      Galaxy := "Galaxy",
      GalaxyPair := "Galaxy",
      GalaxyTriplet := "Galaxy",
      GroupOfGalaxies := "Galaxy",
      Nebula := "Nebula",
      PlanetaryNebula := "Nebula",
      EmissionNebula := "Nebula",
      StarClusterNebula := "Nebula",
      ReflectionNebula := "Nebula"
    ]

  /** Galaxies are labelled "Galaxy", nebulas "Nebula", and no other type
      (clusters, stars, the rest) has a legend category. */
  lemma LegendLabelsByFamily(t: DsoType)
    ensures t in LegendLabels <==> FamilyOf(t) == GalaxyFamily || FamilyOf(t) == NebulaFamily
    ensures FamilyOf(t) == GalaxyFamily ==> LegendLabels[t] == "Galaxy"
    ensures FamilyOf(t) == NebulaFamily ==> LegendLabels[t] == "Nebula"
  {
  }
}
