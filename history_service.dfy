/** `HistoryService`: the list of searched cities kept in one JSON file.
    Every operation reads the whole file and `addCity`/`removeCity` write
    the whole list back. The file is the object's state. */
module HistoryService {
  import opened Runtime

  datatype City = City(id: string, name: string)

  /** The id `addCity` gives the record it appends to `count` records. */
  function NextId(count: nat): string
  {
    DecimalString(count + 1)
  }

  /** `cities.filter((city) => city.id !== id)`. */
  function Without(cities: seq<City>, id: string): (r: seq<City>)
    ensures |r| <= |cities|
    ensures forall c :: c in r <==> c in cities && c.id != id
  {
    if cities == [] then []
    else if cities[0].id == id then Without(cities[1..], id)
    else [cities[0]] + Without(cities[1..], id)
  }

  /** Records whose ids are "1", "2", ... in order, as a history that has
      only ever been added to has. */
  ghost predicate SequentialIds(cities: seq<City>)
  {
    forall i :: 0 <= i < |cities| ==> cities[i].id == DecimalString(i + 1)
  }

  /** No two records share an id. */
  ghost predicate UniqueIds(cities: seq<City>)
  {
    forall i, j :: 0 <= i < j < |cities| ==> cities[i].id != cities[j].id
  }

  class HistoryStore {
    /** The search-history file. */
    var file: StoredFile<City>

    constructor (initial: StoredFile<City>)
      ensures file == initial
    {
      file := initial;
    }

    /** `read`: an absent file reads as the empty list; a file that is not
        JSON makes `JSON.parse` throw. */
    method Read() returns (r: Result<seq<City>>)
      ensures file.Missing? ==> r == Success([])
      ensures file.Json? ==> r == Success(file.records)
      ensures file.Malformed? ==> r == Failure(SyntaxError)
    {
      if file.Missing? {
        return Success([]);
      }
      if file.Malformed? {
        return Failure(SyntaxError);
      }
      return Success(file.records);
    }

    /** `write`: the whole list replaces the file. */
    method Write(cities: seq<City>)
      modifies this
      ensures file == Json(cities)
    {
      file := Json(cities);
    }

    /** `getCities`. */
    method GetCities() returns (r: Result<seq<City>>)
      ensures file.Missing? ==> r == Success([])
      ensures file.Json? ==> r == Success(file.records)
      ensures file.Malformed? ==> r == Failure(SyntaxError)
    {
      r := Read();
    }

    /** `addCity`: appends one record whose id is the count plus one and
        whose name is the argument, keeping every earlier record in place.
        A file that cannot be parsed is left as it is. */
    method AddCity(city: string) returns (r: Result<()>)
      modifies this
      ensures old(file).Malformed? ==> r == Failure(SyntaxError) && file == old(file)
      ensures !old(file).Malformed? ==>
        var before := old(file).Contents();
        && r == Success(())
        && file == Json(before + [City(NextId(|before|), city)])
      ensures !old(file).Malformed? && SequentialIds(old(file).Contents()) ==>
        file.Json? && SequentialIds(file.records) && UniqueIds(file.records)
    {
      var loaded := GetCities();
      if loaded.Failure? {
        return Failure(loaded.error);
      }
      var cities := loaded.value;
      var newCity := City(NextId(|cities|), city);
      cities := cities + [newCity];
      Write(cities);
      if SequentialIds(old(file).Contents()) {
        SequentialIdsAreUnique(cities);
      }
      return Success(());
    }

    /** `removeCity`: writes back the list without the records that have
        this id. */
    method RemoveCity(id: string) returns (r: Result<()>)
      modifies this
      ensures old(file).Malformed? ==> r == Failure(SyntaxError) && file == old(file)
      ensures !old(file).Malformed? ==>
        r == Success(()) && file == Json(Without(old(file).Contents(), id))
    {
      var loaded := GetCities();
      if loaded.Failure? {
        return Failure(loaded.error);
      }
      var cities := Without(loaded.value, id);
      Write(cities);
      return Success(());
    }
  }

  // -----------------------------------------------------------------------
  // Properties of removal
  // -----------------------------------------------------------------------

  /** Filtering a concatenation filters each part: the records that stay
      keep their relative order. */
  lemma {:induction false} WithoutAppend(a: seq<City>, b: seq<City>, id: string)
    ensures Without(a + b, id) == Without(a, id) + Without(b, id)
    decreases |a|
  {
    if a == [] {
      assert a + b == b;
    } else {
      assert (a + b)[1..] == a[1..] + b;
      WithoutAppend(a[1..], b, id);
    }
  }

  /** One record stays exactly when its id differs. */
  lemma WithoutSingle(c: City, id: string)
    ensures Without([c], id) == if c.id == id then [] else [c]
  {
  }

  /** Removing an id that no record has changes nothing, and removing one
      that some record has always changes the list. */
  lemma {:induction false} WithoutUnchanged(cities: seq<City>, id: string)
    ensures Without(cities, id) == cities <==> forall c :: c in cities ==> c.id != id
    decreases |cities|
  {
    if cities != [] {
      WithoutUnchanged(cities[1..], id);
      if cities[0].id != id && Without(cities[1..], id) == cities[1..] {
        assert [cities[0]] + cities[1..] == cities;
      }
    }
  }

  /** Removing the same id twice is removing it once. */
  lemma {:induction false} WithoutIdempotent(cities: seq<City>, id: string)
    ensures Without(Without(cities, id), id) == Without(cities, id)
  {
    WithoutUnchanged(Without(cities, id), id);
  }

  // -----------------------------------------------------------------------
  // Properties of the ids
  // -----------------------------------------------------------------------

  /** Ids "1", "2", ... in order are pairwise different. */
  lemma SequentialIdsAreUnique(cities: seq<City>)
    requires SequentialIds(cities)
    ensures UniqueIds(cities)
  {
    forall i, j | 0 <= i < j < |cities|
      ensures cities[i].id != cities[j].id
    {
      DecimalStringInjective(i + 1, j + 1);
    }
  }

  /** Adding two cities to a history whose file does not exist yet gives
      them the ids "1" and "2". */
  method AddTwiceToMissingFile(first: string, second: string) returns (cities: Result<seq<City>>)
    ensures cities == Success([City("1", first), City("2", second)])
  {
    SmallDecimalStrings();
    var store := new HistoryStore(Missing);
    var _ := store.AddCity(first);
    assert store.file == Json([City("1", first)]);
    var _ := store.AddCity(second);
    assert store.file == Json([City("1", first), City("2", second)]);
    cities := store.GetCities();
  }

  /** Ids come from the count, so they repeat after a removal: from the ids
      "1" and "2", removing "1" and adding a city gives a second "2". */
  method RemoveThenAdd(first: string, second: string, third: string)
    returns (cities: Result<seq<City>>)
    ensures cities == Success([City("2", second), City("2", third)])
    ensures cities.Success? && !UniqueIds(cities.value)
  {
    SmallDecimalStrings();
    var store := new HistoryStore(Json([City("1", first), City("2", second)]));
    var _ := store.RemoveCity("1");
    assert store.file == Json([City("2", second)]) by {
      var cities := [City("1", first), City("2", second)];
      assert cities == [cities[0]] + [cities[1]];
      WithoutAppend([cities[0]], [cities[1]], "1");
      WithoutSingle(cities[0], "1");
      WithoutSingle(cities[1], "1");
    }
    var _ := store.AddCity(third);
    assert NextId(1) == "2";
    assert store.file == Json([City("2", second), City("2", third)]);
    cities := store.GetCities();
    assert cities.value[0].id == cities.value[1].id;
  }
}
