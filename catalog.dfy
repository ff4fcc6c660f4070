/** The menu entities the backend returns (restaurant categories, dishes and their
    sizes) and the two lookups the session performs on them: the size of a dish by
    id (`Array.prototype.find`) and the position of a dish by id
    (`Array.prototype.findIndex`). */
module Catalog {
  import opened JsValues

  /** The three display languages offered on the language screen. */
  datatype Lang = En | Ar | Fr

  /** The two food types offered on the type screen. */
  datatype FoodType = Sweet | Savory

  /** A text in its base (English) form and its Arabic and French variants
      (`name_en`/`name_ar`/`name_fr`, `description_en`/..., `note`/`note_ar`/`note_fr`). */
  datatype Texts = Texts(en: Field, ar: Field, fr: Field)

  /** A purchasable variant of a dish; the price is in minor currency units. */
  datatype Size = Size(id: int, name: Texts, price: int)

  datatype Dish = Dish(id: int, name: Texts, description: Texts, sizes: seq<Size>)

  /** An ingredient the diner may ask to leave out; its base text is the `note` field. */
  datatype RemovalNote = RemovalNote(note: Texts)

  datatype Category = Category(id: int, name: Texts, removalNotes: seq<RemovalNote>)

  /** `sizes.find(s => s.id === id)`: the first size carrying the id, if any. */
  function FindSize(sizes: seq<Size>, id: int): (r: Option<Size>)
    ensures r.Some? <==> exists j :: 0 <= j < |sizes| && sizes[j].id == id
    ensures r.Some? ==> r.value in sizes && r.value.id == id
    ensures r.Some? ==> exists j :: 0 <= j < |sizes| && sizes[j] == r.value &&
                          forall k :: 0 <= k < j ==> sizes[k].id != id
  {
    if sizes == [] then None
    else if sizes[0].id == id then Some(sizes[0])
    else
      var r := FindSize(sizes[1..], id);
      assert forall j :: 1 <= j < |sizes| ==> sizes[j] == sizes[1..][j - 1];
      r
  }

  /** `dishes.findIndex(d => d.id === id)`: the index of the first dish carrying the
      id, or -1 when there is none. */
  function FindDishIndex(dishes: seq<Dish>, id: int): (r: int)
    ensures -1 <= r < |dishes|
    ensures r == -1 <==> forall j :: 0 <= j < |dishes| ==> dishes[j].id != id
    ensures r >= 0 ==> dishes[r].id == id && forall j :: 0 <= j < r ==> dishes[j].id != id
  {
    if dishes == [] then -1
    else if dishes[0].id == id then 0
    else
      var r := FindDishIndex(dishes[1..], id);
      if r == -1 then -1 else r + 1
  }
}
