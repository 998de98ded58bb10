/** `Location.asStorageModel` (Location+asStorageModel.swift). */
module LocationAsStorageModel {
  import opened Storage

  /** The attributes of the `StorageLocation` that `asStorageModel` builds. */
  datatype StorageFields = StorageFields(index: int, name: string, longitude: real, latitude: real)

  /**
   * The field copy: index 0, the name as it is, longitude from `lon` and
   * latitude from `lat`.
   */
  function AsStorageModel(l: Location): (r: StorageFields)
    ensures r.index == 0 && r.name == l.name
    ensures r.longitude == l.lon && r.latitude == l.lat
  {
    StorageFields(index := 0, name := l.name, longitude := l.lon, latitude := l.lat)
  }

  /** The place can be read back from the copy: nothing is lost or swapped. */
  lemma AsStorageModelKeepsPlace(l: Location)
    ensures var s := AsStorageModel(l); Location(s.name, s.latitude, s.longitude) == l
  {
  }
}
