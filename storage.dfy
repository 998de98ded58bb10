/**
 * The persisted pin (`StorageLocation`, a SwiftData model object), the
 * geocoded place (`Location`) and the model context that stores pins.
 */
module Storage {
  /** A geocoded place: its name and coordinates. */
  datatype Location = Location(name: string, lat: real, lon: real)

  /**
   * A stored pin. Only `index` is ever reassigned; the other attributes
   * are fixed when the object is made.
   */
  class StorageLocation {
    const id: string
    const name: string
    const longitude: real
    const latitude: real
    var index: int

    constructor(id: string, index: int, name: string, longitude: real, latitude: real)
      ensures this.id == id && this.index == index && this.name == name
      ensures this.longitude == longitude && this.latitude == latitude
    {
      this.id := id;
      this.index := index;
      this.name := name;
      this.longitude := longitude;
      this.latitude := latitude;
    }
  }

  /** `@Attribute(.unique) var id`: no two stored pins share an id. */
  predicate UniqueIds(locs: seq<StorageLocation>)
  {
    forall i, j :: 0 <= i < |locs| && 0 <= j < |locs| && i != j ==> locs[i].id != locs[j].id
  }

  /** The indices of the pins, in sequence order. */
  function Indices(locs: seq<StorageLocation>): (r: seq<int>)
    reads locs
    ensures |r| == |locs|
    ensures forall j :: 0 <= j < |locs| ==> r[j] == locs[j].index
  {
    if |locs| == 0 then [] else [locs[0].index] + Indices(locs[1..])
  }

  /** Indices exactly 1, 2, ..., n in sequence order. */
  predicate NumberedFromOne(xs: seq<int>)
  {
    forall j :: 0 <= j < |xs| ==> xs[j] == j + 1
  }

  /** SwiftData's model context: the set of stored pins. */
  class ModelContext {
    var objects: set<StorageLocation>

    constructor()
      ensures objects == {}
    {
      objects := {};
    }

    method Insert(model: StorageLocation)
      modifies this
      ensures objects == old(objects) + {model}
    {
      objects := objects + {model};
    }

    method Delete(model: StorageLocation)
      modifies this
      ensures objects == old(objects) - {model}
    {
      objects := objects - {model};
    }
  }
}
