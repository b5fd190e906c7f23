/** The context every constraint builder shares: the materials, the horizon
    [t0, tmax], and the material-time index spaces, which default to the
    builder's output when the caller passes none. It is set once and never
    updated, so it is a value. */
module BaseConstraint {
  import opened Wrappers
  import opened Indexes

  datatype Context = Context(
    materials: seq<Material>,
    t0: Time,
    tmax: Time,
    allMaterialsAllTimeIndexes: seq<MaterialTimeIndex>,
    allMaterialsT0Index: seq<MaterialTimeIndex>)

  /** Python's truthiness test on an optional list argument: `None` and the
      empty list both count as not supplied. */
  predicate Supplied<T>(x: Option<seq<T>>)
  {
    x.Some? && x.value != []
  }

  /** `given if given else fallback`. */
  function OrDefault<T>(given: Option<seq<T>>, fallback: seq<T>): seq<T>
  {
    if Supplied(given) then given.value else fallback
  }

  /** `BaseConstraint.__init__`. */
  function NewContext(
    materials: seq<Material>, t0: Time, tmax: Time,
    allMaterialsAllTimeIndexes: Option<seq<MaterialTimeIndex>>,
    allMaterialsT0Index: Option<seq<MaterialTimeIndex>>): (c: Context)
    ensures c.materials == materials && c.t0 == t0 && c.tmax == tmax
    ensures Supplied(allMaterialsAllTimeIndexes) ==> c.allMaterialsAllTimeIndexes == allMaterialsAllTimeIndexes.value
    ensures !Supplied(allMaterialsAllTimeIndexes) ==>
              c.allMaterialsAllTimeIndexes == BuildMaterialTimeIndexes(materials, t0, tmax)
    ensures Supplied(allMaterialsT0Index) ==> c.allMaterialsT0Index == allMaterialsT0Index.value
    ensures !Supplied(allMaterialsT0Index) ==> c.allMaterialsT0Index == BuildMaterialTimeIndexes(materials, t0, t0)
  {
    Context(
      materials, t0, tmax,
      OrDefault(allMaterialsAllTimeIndexes, BuildMaterialTimeIndexes(materials, t0, tmax)),
      OrDefault(allMaterialsT0Index, BuildMaterialTimeIndexes(materials, t0, t0)))
  }

  /** The context a builder gets when only materials and the horizon are passed. */
  function DefaultContext(materials: seq<Material>, t0: Time, tmax: Time): Context
  {
    NewContext(materials, t0, tmax, None, None)
  }

  /** The defaulted all-time index holds exactly the listed materials at every
      instant of the horizon, and the defaulted t0 index holds one entry per
      material, in list order. */
  lemma DefaultedIndexes(materials: seq<Material>, t0: Time, tmax: Time,
                         allTime: Option<seq<MaterialTimeIndex>>, t0Index: Option<seq<MaterialTimeIndex>>)
    ensures var c := NewContext(materials, t0, tmax, allTime, t0Index);
            !Supplied(allTime) ==>
              |c.allMaterialsAllTimeIndexes| == |materials| * Span(t0, tmax) &&
              forall x :: x in c.allMaterialsAllTimeIndexes <==> x.material in materials && t0 <= x.time <= tmax
    ensures var c := NewContext(materials, t0, tmax, allTime, t0Index);
            !Supplied(t0Index) ==>
              |c.allMaterialsT0Index| == |materials| &&
              forall i :: 0 <= i < |materials| ==> c.allMaterialsT0Index[i] == MaterialTimeIndex(materials[i], t0)
  {
    forall x {
      MaterialTimeIndexMember(materials, t0, tmax, x);
    }
    T0IndexOnePerMaterial(materials, t0);
  }

  /** An empty list is not taken verbatim: with at least one material and a
      non-empty horizon, passing `[]` yields a non-empty rebuilt index. */
  lemma EmptyListIsRebuilt(materials: seq<Material>, t0: Time, tmax: Time)
    requires materials != [] && t0 <= tmax
    ensures NewContext(materials, t0, tmax, Some([]), Some([])).allMaterialsAllTimeIndexes != []
    ensures NewContext(materials, t0, tmax, Some([]), Some([])).allMaterialsT0Index != []
  {
    MaterialTimeIndexAt(materials, t0, tmax, 0, 0);
    T0IndexOnePerMaterial(materials, t0);
  }
}
