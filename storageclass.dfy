/** Canonical storage classes and the per-backend tables that normalise a
    backend's class identifier onto them. */
module StorageClasses {
  import opened Errors

  /** The closed set of canonical classes. */
  datatype StorageClass = Hot | Warm | Cold

  /** A backend's table is injective: no two identifiers name the same class. */
  ghost predicate Injective<K>(table: map<K, StorageClass>)
  {
    forall a, b :: a in table && b in table && a != b ==> table[a] != table[b]
  }

  /** formatStorageClass: look the identifier up in the backend's table. */
  function Normalize<K>(table: map<K, StorageClass>, id: K): (r: Result<StorageClass>)
    ensures r.Ok? <==> id in table
    ensures r.Ok? ==> r.value == table[id]
    ensures r.Err? ==> r.error == StorageClassNotSupported
  {
    if id in table then Ok(table[id]) else Err(StorageClassNotSupported)
  }

  /** The inverse direction: the backend identifier that names a canonical class. */
  function Denormalize<K>(table: map<K, StorageClass>, c: StorageClass): (id: K)
    requires Injective(table)
    requires c in table.Values
    ensures id in table && table[id] == c
  {
    var id :| id in table && table[id] == c; id
  }

  /** Normalisation is a bijection on the supported identifiers. */
  lemma NormalizeRoundTrip<K>(table: map<K, StorageClass>, id: K)
    requires Injective(table)
    requires id in table
    ensures Normalize(table, id).Ok?
    ensures Denormalize(table, Normalize(table, id).value) == id
  {
    var c := table[id];
    assert c in table.Values;
    var back := Denormalize(table, c);
    assert table[back] == c;
  }

  lemma DenormalizeRoundTrip<K>(table: map<K, StorageClass>, c: StorageClass)
    requires Injective(table)
    requires c in table.Values
    ensures Normalize(table, Denormalize(table, c)) == Ok(c)
  {
  }

  /** qingstor: the class identifiers of the object service. */
  const QingstorClasses: map<string, StorageClass> :=
    map["STANDARD" := Hot, "STANDARD_IA" := Warm]

  /** azblob: the blob access tiers. */
  const AzblobClasses: map<string, StorageClass> :=
    map["Hot" := Hot, "Cool" := Warm, "Archive" := Cold]

  /** kodo: the integer file types. */
  const KodoClasses: map<int, StorageClass> :=
    map[0 := Hot, 1 := Warm]

  lemma TablesInjective()
    ensures Injective(QingstorClasses)
    ensures Injective(AzblobClasses)
    ensures Injective(KodoClasses)
  {
  }

  /** The mapping the qingstor tests fix: "STANDARD" is Hot, "xxxx" is rejected. */
  lemma QingstorFixedByTests()
    ensures Normalize(QingstorClasses, "STANDARD") == Ok(Hot)
    ensures Normalize(QingstorClasses, "xxxx") == Err(StorageClassNotSupported)
  {
  }
}
