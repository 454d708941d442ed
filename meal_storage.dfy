/** The meal log file: a JSON object whose `meals` array holds one object per meal. */
module MealStorage {
  import opened Wrappers
  import opened Text
  import opened Json
  import opened Meals

  /** The six fields `write` stores for a meal; the image is not stored. */
  function EncodeMeal(meal: MealEntry, formatInstant: int -> string): Json {
    JObj([Field("id", JStr(meal.id)),
          Field("recordedAt", JStr(formatInstant(meal.recordedAt))),
          Field("description", JStr(meal.description)),
          Field("fatGrams", JNum(meal.fatGrams)),
          Field("carbGrams", JNum(meal.carbGrams)),
          Field("proteinGrams", JNum(meal.proteinGrams))])
  }

  /** The stored objects of the meals, in list order. */
  function EncodedArray(meals: seq<MealEntry>, formatInstant: int -> string): (r: seq<Json>)
    ensures |r| == |meals| && forall i :: 0 <= i < |meals| ==> r[i] == EncodeMeal(meals[i], formatInstant)
  {
    if meals == [] then []
    else EncodedArray(meals[..|meals| - 1], formatInstant) + [EncodeMeal(meals[|meals| - 1], formatInstant)]
  }

  /** The root object `write` builds: the meals in list order under `meals`. */
  function MealsDocument(meals: seq<MealEntry>, formatInstant: int -> string): JsonObject {
    [Field("meals", JArr(EncodedArray(meals, formatInstant)))]
  }

  /** `write`: the text stored in the file. `formatInstant` stands for the entry's
      timestamp formatter. */
  method Write(meals: seq<MealEntry>, formatInstant: int -> string) returns (text: string)
    ensures text == Encode(JObj(MealsDocument(meals, formatInstant)))
  {
    var stored: seq<Json> := [];
    var n := 0;
    while n < |meals|
      invariant 0 <= n <= |meals|
      invariant stored == EncodedArray(meals[..n], formatInstant)
    {
      assert meals[..n + 1][..n] == meals[..n];
      stored := stored + [EncodeMeal(meals[n], formatInstant)];
      n := n + 1;
    }
    assert meals[..n] == meals;
    text := Encode(JObj([Field("meals", JArr(stored))]));
  }

  /** One stored object read back: missing text fields give `freshId` and the empty
      description, missing macros 0, and a missing or blank timestamp `now`; a timestamp
      that does not parse fails the whole read. */
  function DecodeMeal(item: JsonObject, parseInstant: string -> Result<int, string>,
                      now: int, freshId: string): (r: Result<MealEntry, string>)
    ensures r.Ok? ==> r.value.imageBase64 == None
    ensures r.Ok? ==> r.value.id == OptString(item, "id", freshId) &&
                      r.value.description == OptString(item, "description", "") &&
                      r.value.fatGrams == OptDouble(item, "fatGrams", 0) &&
                      r.value.carbGrams == OptDouble(item, "carbGrams", 0) &&
                      r.value.proteinGrams == OptDouble(item, "proteinGrams", 0)
    ensures IsBlank(OptString(item, "recordedAt", "")) ==> r.Ok? && r.value.recordedAt == now
    ensures !IsBlank(OptString(item, "recordedAt", "")) ==>
      (r.Ok? <==> parseInstant(OptString(item, "recordedAt", "")).Ok?) &&
      (r.Ok? ==> r.value.recordedAt == parseInstant(OptString(item, "recordedAt", "")).value)
  {
    var stamp := OptString(item, "recordedAt", "");
    var recordedAt := if IsBlank(stamp) then Ok(now) else parseInstant(stamp);
    match recordedAt
    case Err(e) => Err(e)
    case Ok(t) =>
      Ok(NewMeal(OptString(item, "id", freshId), t, OptString(item, "description", ""),
                 OptDouble(item, "fatGrams", 0), OptDouble(item, "carbGrams", 0),
                 OptDouble(item, "proteinGrams", 0)))
  }

  /** The positions of the items that are objects, in increasing order. */
  function ObjectIndices(items: seq<Json>): (r: seq<nat>)
    ensures forall k :: 0 <= k < |r| ==> r[k] < |items| && items[r[k]].JObj?
    ensures forall k, l :: 0 <= k < l < |r| ==> r[k] < r[l]
    ensures forall i :: 0 <= i < |items| && items[i].JObj? ==> i in r
  {
    if items == [] then []
    else
      var n := |items| - 1;
      var front := ObjectIndices(items[..n]);
      assert forall k :: 0 <= k < |front| ==> items[..n][front[k]] == items[front[k]];
      assert forall i :: 0 <= i < n ==> items[..n][i] == items[i];
      if items[n].JObj? then front + [n] else front
  }

  /** The entries of the first `|items|` array elements, in order: non-objects are skipped,
      and the first object that fails to decode fails the read. `freshId(i)` is the UUID
      drawn for element `i`. */
  function DecodeItems(items: seq<Json>, parseInstant: string -> Result<int, string>,
                       now: int, freshId: nat -> string): (r: Result<seq<MealEntry>, string>)
    ensures r.Ok? ==> |r.value| == |ObjectIndices(items)|
    ensures r.Ok? ==> forall k :: 0 <= k < |r.value| ==> r.value[k].imageBase64 == None
  {
    if items == [] then Ok([])
    else
      var n := |items| - 1;
      match DecodeItems(items[..n], parseInstant, now, freshId)
      case Err(e) => Err(e)
      case Ok(prefix) =>
        if !items[n].JObj? then Ok(prefix)
        else
          match DecodeMeal(items[n].fields, parseInstant, now, freshId(n))
          case Err(e) => Err(e)
          case Ok(meal) => Ok(prefix + [meal])
  }

  /** The list a file's content holds: no `meals` array reads as no meals. */
  function ReadDocument(content: string, parse: string -> Result<Json, string>,
                        parseInstant: string -> Result<int, string>, now: int,
                        freshId: nat -> string): Result<seq<MealEntry>, string>
  {
    match ParseObject(content, parse)
    case Err(e) => Err(e)
    case Ok(root) => DecodeItems(OptArray(root, "meals").GetOr([]), parseInstant, now, freshId)
  }

  /** `read`: `file` is the file's content, `None` when it does not exist. */
  method Read(file: Option<string>, parse: string -> Result<Json, string>,
              parseInstant: string -> Result<int, string>, now: int, freshId: nat -> string)
    returns (result: Result<seq<MealEntry>, string>)
    ensures file.None? ==> result == Ok([])
    ensures file.Some? && IsBlank(file.value) ==> result == Ok([])
    ensures file.Some? && !IsBlank(file.value) ==>
      result == ReadDocument(file.value, parse, parseInstant, now, freshId)
  {
    if file.None? {
      return Ok([]);
    }
    var content := file.value;
    if IsBlank(content) {
      return Ok([]);
    }
    var root := ParseObject(content, parse);
    if root.Err? {
      return Err(root.error);
    }
    var mealsArray := OptArray(root.value, "meals").GetOr([]);
    var list: seq<MealEntry> := [];
    var index := 0;
    while index < |mealsArray|
      invariant 0 <= index <= |mealsArray|
      invariant DecodeItems(mealsArray[..index], parseInstant, now, freshId) == Ok(list)
    {
      assert mealsArray[..index + 1][..index] == mealsArray[..index];
      var item := ItemObject(mealsArray, index);
      if item.None? {
        index := index + 1;
        continue;
      }
      var meal := DecodeMeal(item.value, parseInstant, now, freshId(index));
      if meal.Err? {
        assert DecodeItems(mealsArray[..index + 1], parseInstant, now, freshId) == Err(meal.error);
        DecodeItemsStopsAtError(mealsArray, index + 1, parseInstant, now, freshId);
        assert mealsArray[..|mealsArray|] == mealsArray;
        return Err(meal.error);
      }
      list := list + [meal.value];
      index := index + 1;
    }
    assert mealsArray[..index] == mealsArray;
    result := Ok(list);
  }

  /** Once a prefix fails, every longer prefix fails with the same message. */
  lemma {:induction false} DecodeItemsStopsAtError(items: seq<Json>, n: nat,
      parseInstant: string -> Result<int, string>, now: int, freshId: nat -> string)
    requires n <= |items|
    requires DecodeItems(items[..n], parseInstant, now, freshId).Err?
    ensures forall m :: n <= m <= |items| ==>
      DecodeItems(items[..m], parseInstant, now, freshId) == DecodeItems(items[..n], parseInstant, now, freshId)
    decreases |items| - n
  {
    if n < |items| {
      assert items[..n + 1][..n] == items[..n];
      DecodeItemsStopsAtError(items, n + 1, parseInstant, now, freshId);
    }
  }

  /** An object with none of the fields reads as a meal of defaults. */
  lemma EmptyObjectDefaults(parseInstant: string -> Result<int, string>, now: int, freshId: string)
    ensures DecodeMeal([], parseInstant, now, freshId) == Ok(NewMeal(freshId, now, "", 0, 0, 0))
  {
  }

  /** A meal without its image. */
  function Stored(meal: MealEntry): MealEntry {
    meal.(imageBase64 := None)
  }

  /** The meals without their images. */
  function StoredAll(meals: seq<MealEntry>): (r: seq<MealEntry>)
    ensures |r| == |meals| && forall i :: 0 <= i < |meals| ==> r[i] == Stored(meals[i])
  {
    if meals == [] then [] else StoredAll(meals[..|meals| - 1]) + [Stored(meals[|meals| - 1])]
  }

  /** A field whose name no other field of the object shares in length is the one looked up. */
  lemma {:induction false} OptByLength(f: JsonObject, k: nat)
    requires k < |f|
    requires forall j :: 0 <= j < k ==> |f[j].name| != |f[k].name|
    ensures Opt(f, f[k].name) == Some(f[k].value)
  {
    OptAt(f, k, f[k].name);
  }

  lemma EncodedMealTexts(meal: MealEntry, formatInstant: int -> string)
    ensures var f := EncodeMeal(meal, formatInstant).fields;
      Opt(f, "id") == Some(JStr(meal.id)) &&
      Opt(f, "recordedAt") == Some(JStr(formatInstant(meal.recordedAt))) &&
      Opt(f, "description") == Some(JStr(meal.description))
  {
    var f := EncodeMeal(meal, formatInstant).fields;
    assert |f[0].name| == 2 && |f[1].name| == 10 && |f[2].name| == 11;
    OptByLength(f, 0);
    OptByLength(f, 1);
    OptByLength(f, 2);
  }

  lemma EncodedMealMacros(meal: MealEntry, formatInstant: int -> string)
    ensures var f := EncodeMeal(meal, formatInstant).fields;
      Opt(f, "fatGrams") == Some(JNum(meal.fatGrams)) &&
      Opt(f, "carbGrams") == Some(JNum(meal.carbGrams)) &&
      Opt(f, "proteinGrams") == Some(JNum(meal.proteinGrams))
  {
    var f := EncodeMeal(meal, formatInstant).fields;
    forall j | 0 <= j < 5 ensures |f[j].name| < 12 && (j < 4 ==> |f[j].name| != 9) && (j < 3 ==> |f[j].name| != 8) {
      if j == 0 {} else if j == 1 {} else if j == 2 {} else if j == 3 {} else {}
    }
    OptByLength(f, 3);
    OptByLength(f, 4);
    OptByLength(f, 5);
  }

  /** What `write` stores for one meal is read back as the meal without its image. */
  lemma DecodeEncodedMeal(meal: MealEntry, formatInstant: int -> string,
                          parseInstant: string -> Result<int, string>, now: int, freshId: string)
    requires !IsBlank(formatInstant(meal.recordedAt))
    requires parseInstant(formatInstant(meal.recordedAt)) == Ok(meal.recordedAt)
    ensures DecodeMeal(EncodeMeal(meal, formatInstant).fields, parseInstant, now, freshId) == Ok(Stored(meal))
  {
    EncodedMealTexts(meal, formatInstant);
    EncodedMealMacros(meal, formatInstant);
  }

  /** Every stored meal is read back, in order. */
  lemma {:induction false} DecodeEncodedItems(meals: seq<MealEntry>, formatInstant: int -> string,
      parseInstant: string -> Result<int, string>, now: int, freshId: nat -> string)
    requires forall k :: 0 <= k < |meals| ==>
      !IsBlank(formatInstant(meals[k].recordedAt)) &&
      parseInstant(formatInstant(meals[k].recordedAt)) == Ok(meals[k].recordedAt)
    ensures DecodeItems(EncodedArray(meals, formatInstant), parseInstant, now, freshId) == Ok(StoredAll(meals))
  {
    if meals != [] {
      var n := |meals| - 1;
      var items := EncodedArray(meals, formatInstant);
      DecodeEncodedItems(meals[..n], formatInstant, parseInstant, now, freshId);
      assert items[..n] == EncodedArray(meals[..n], formatInstant);
      assert items[n] == EncodeMeal(meals[n], formatInstant);
      DecodeEncodedMeal(meals[n], formatInstant, parseInstant, now, freshId(n));
      assert StoredAll(meals) == StoredAll(meals[..n]) + [Stored(meals[n])];
    }
  }

  /** Writing the meals and reading the file back gives the same meals, without images,
      provided the JSON text and the timestamps parse back to what was written: the file is
      not blank, its `meals` array is what was written, and that array decodes to the meals. */
  lemma ReadAfterWrite(meals: seq<MealEntry>, formatInstant: int -> string,
                       parse: string -> Result<Json, string>,
                       parseInstant: string -> Result<int, string>, now: int, freshId: nat -> string)
    requires parse(Encode(JObj(MealsDocument(meals, formatInstant)))) == Ok(JObj(MealsDocument(meals, formatInstant)))
    requires forall k :: 0 <= k < |meals| ==>
      !IsBlank(formatInstant(meals[k].recordedAt)) &&
      parseInstant(formatInstant(meals[k].recordedAt)) == Ok(meals[k].recordedAt)
    ensures !IsBlank(Encode(JObj(MealsDocument(meals, formatInstant))))
    ensures ReadDocument(Encode(JObj(MealsDocument(meals, formatInstant))), parse, parseInstant, now, freshId) ==
            DecodeItems(EncodedArray(meals, formatInstant), parseInstant, now, freshId)
    ensures DecodeItems(EncodedArray(meals, formatInstant), parseInstant, now, freshId) == Ok(StoredAll(meals))
  {
    EncodeNotBlank(JObj(MealsDocument(meals, formatInstant)));
    DecodeEncodedItems(meals, formatInstant, parseInstant, now, freshId);
  }

  /** A file whose root object has no `meals` array holds no meals. */
  lemma NoMealsArray(content: string, parse: string -> Result<Json, string>,
                     parseInstant: string -> Result<int, string>, now: int, freshId: nat -> string)
    requires ParseObject(content, parse).Ok?
    requires OptArray(ParseObject(content, parse).value, "meals").None?
    ensures ReadDocument(content, parse, parseInstant, now, freshId) == Ok([])
  {
  }

  /** The decoding of the object at position `i`, with the UUID drawn for that position. */
  function DecodeAt(items: seq<Json>, i: nat, parseInstant: string -> Result<int, string>,
                    now: int, freshId: nat -> string): Result<MealEntry, string>
    requires i < |items| && items[i].JObj?
  {
    DecodeMeal(items[i].fields, parseInstant, now, freshId(i))
  }

  /** An object's decoding does not depend on the elements after it. */
  lemma DecodeAtPrefix(items: seq<Json>, n: nat, i: nat, parseInstant: string -> Result<int, string>,
                       now: int, freshId: nat -> string)
    requires i < n <= |items| && items[i].JObj?
    ensures items[..n][i].JObj?
    ensures DecodeAt(items[..n], i, parseInstant, now, freshId) == DecodeAt(items, i, parseInstant, now, freshId)
  {
    assert items[..n][i] == items[i];
  }

  /** A successful read holds one meal per object, in array order: the decoding of that
      object. */
  lemma {:induction false} DecodedInOrder(items: seq<Json>,
      parseInstant: string -> Result<int, string>, now: int, freshId: nat -> string)
    requires DecodeItems(items, parseInstant, now, freshId).Ok?
    ensures var meals := DecodeItems(items, parseInstant, now, freshId).value;
      var objects := ObjectIndices(items);
      forall k :: 0 <= k < |objects| ==>
        DecodeAt(items, objects[k], parseInstant, now, freshId) == Ok(meals[k])
  {
    if items != [] {
      var n := |items| - 1;
      var front := items[..n];
      var before := ObjectIndices(front);
      var prefix := DecodeItems(front, parseInstant, now, freshId).value;
      var meals := DecodeItems(items, parseInstant, now, freshId).value;
      var objects := ObjectIndices(items);
      DecodedInOrder(front, parseInstant, now, freshId);
      forall k | 0 <= k < |objects|
        ensures DecodeAt(items, objects[k], parseInstant, now, freshId) == Ok(meals[k])
      {
        if k < |before| {
          assert objects[k] == before[k] && meals[k] == prefix[k];
          DecodeAtPrefix(items, n, before[k], parseInstant, now, freshId);
        } else {
          assert objects[k] == n && meals[k] == DecodeAt(items, n, parseInstant, now, freshId).value;
        }
      }
    }
  }

  /** The read succeeds when every object decodes. */
  lemma {:induction false} EveryObjectDecodes(items: seq<Json>,
      parseInstant: string -> Result<int, string>, now: int, freshId: nat -> string)
    requires forall k :: 0 <= k < |ObjectIndices(items)| ==>
      DecodeAt(items, ObjectIndices(items)[k], parseInstant, now, freshId).Ok?
    ensures DecodeItems(items, parseInstant, now, freshId).Ok?
  {
    if items != [] {
      var n := |items| - 1;
      var front := items[..n];
      var before := ObjectIndices(front);
      forall k | 0 <= k < |before|
        ensures DecodeAt(front, before[k], parseInstant, now, freshId).Ok?
      {
        assert before[k] == ObjectIndices(items)[k];
        DecodeAtPrefix(items, n, before[k], parseInstant, now, freshId);
      }
      EveryObjectDecodes(front, parseInstant, now, freshId);
      if items[n].JObj? {
        assert n == ObjectIndices(items)[|before|];
      }
    }
  }

  /** The `k`-th object is the first that does not decode, and it fails with `e`. */
  predicate FirstFailure(items: seq<Json>, k: nat, e: string,
                         parseInstant: string -> Result<int, string>, now: int, freshId: nat -> string)
  {
    var objects := ObjectIndices(items);
    k < |objects| && DecodeAt(items, objects[k], parseInstant, now, freshId) == Err(e) &&
    forall l :: 0 <= l < k ==> DecodeAt(items, objects[l], parseInstant, now, freshId).Ok?
  }

  /** A failed read reports the error of the first object that does not decode. */
  lemma {:induction false} FirstFailureReported(items: seq<Json>,
      parseInstant: string -> Result<int, string>, now: int, freshId: nat -> string)
    requires DecodeItems(items, parseInstant, now, freshId).Err?
    ensures exists k: nat :: FirstFailure(items, k, DecodeItems(items, parseInstant, now, freshId).error,
                                          parseInstant, now, freshId)
  {
    var n := |items| - 1;
    var front := items[..n];
    var before := ObjectIndices(front);
    var objects := ObjectIndices(items);
    var e := DecodeItems(items, parseInstant, now, freshId).error;
    var k: nat;
    if DecodeItems(front, parseInstant, now, freshId).Err? {
      FirstFailureReported(front, parseInstant, now, freshId);
      k :| FirstFailure(front, k, e, parseInstant, now, freshId);
      forall l | 0 <= l < k
        ensures DecodeAt(items, objects[l], parseInstant, now, freshId).Ok?
      {
        assert objects[l] == before[l];
        DecodeAtPrefix(items, n, before[l], parseInstant, now, freshId);
      }
      assert objects[k] == before[k];
      DecodeAtPrefix(items, n, before[k], parseInstant, now, freshId);
    } else {
      assert items[n].JObj? && objects == before + [n];
      k := |before|;
      EveryObjectOk(items, n, parseInstant, now, freshId);
    }
    assert FirstFailure(items, k, e, parseInstant, now, freshId);
  }

  /** When the items before the last one read successfully, every object among them
      decodes. */
  lemma EveryObjectOk(items: seq<Json>, n: nat, parseInstant: string -> Result<int, string>,
                      now: int, freshId: nat -> string)
    requires n == |items| - 1
    requires DecodeItems(items[..n], parseInstant, now, freshId).Ok?
    ensures forall l :: 0 <= l < |ObjectIndices(items[..n])| ==>
      DecodeAt(items, ObjectIndices(items)[l], parseInstant, now, freshId).Ok?
  {
    var before := ObjectIndices(items[..n]);
    var objects := ObjectIndices(items);
    DecodedInOrder(items[..n], parseInstant, now, freshId);
    forall l | 0 <= l < |before|
      ensures DecodeAt(items, objects[l], parseInstant, now, freshId).Ok?
    {
      assert objects[l] == before[l];
      DecodeAtPrefix(items, n, before[l], parseInstant, now, freshId);
      assert DecodeAt(items[..n], before[l], parseInstant, now, freshId) ==
        Ok(DecodeItems(items[..n], parseInstant, now, freshId).value[l]);
    }
  }

  /** An array element that is not an object contributes nothing, wherever the objects are. */
  lemma SkipsNonObject(items: seq<Json>, x: Json, parseInstant: string -> Result<int, string>,
                       now: int, freshId: nat -> string)
    requires !x.JObj?
    ensures DecodeItems(items + [x], parseInstant, now, freshId) == DecodeItems(items, parseInstant, now, freshId)
  {
    assert (items + [x])[..|items|] == items;
  }

  /** Elements that are not objects at the end of the array change nothing; an array of
      them alone holds no meals. */
  lemma {:induction false} NonObjectsSkipped(items: seq<Json>, tail: seq<Json>,
      parseInstant: string -> Result<int, string>, now: int, freshId: nat -> string)
    requires forall k :: 0 <= k < |tail| ==> !tail[k].JObj?
    ensures DecodeItems(items + tail, parseInstant, now, freshId) == DecodeItems(items, parseInstant, now, freshId)
    decreases |tail|
  {
    if tail != [] {
      var n := |tail| - 1;
      calc {
        DecodeItems(items + tail, parseInstant, now, freshId);
        { assert items + tail == (items + tail[..n]) + [tail[n]]; }
        DecodeItems((items + tail[..n]) + [tail[n]], parseInstant, now, freshId);
        { SkipsNonObject(items + tail[..n], tail[n], parseInstant, now, freshId); }
        DecodeItems(items + tail[..n], parseInstant, now, freshId);
        { NonObjectsSkipped(items, tail[..n], parseInstant, now, freshId); }
        DecodeItems(items, parseInstant, now, freshId);
      }
    } else {
      assert items + tail == items;
    }
  }
}
