/** How the session picks the text to show for a localized field. The code spells the
    fallback in two ways: a guarded form (start from the base value, then take the
    Arabic or French variant when the language matches and the variant is truthy) for
    category names, dish-card names and removal-note texts, and an `||` form
    (`x = variant || x` under a language test) on the dish detail screen for dish
    names, descriptions and size names. Both are modelled and shown to agree. */
module Localization {
  import opened JsValues
  import opened Catalog

  /** The guarded fallback: start from the base value, then take the variant of the
      selected language when it is truthy. */
  function Localize(t: Texts, lang: Lang): (r: Field)
    ensures lang == Ar && Truthy(t.ar) ==> r == t.ar
    ensures lang == Fr && Truthy(t.fr) ==> r == t.fr
    ensures !(lang == Ar && Truthy(t.ar)) && !(lang == Fr && Truthy(t.fr)) ==> r == t.en
  {
    var x0 := t.en;
    var x1 := if lang == Ar && Truthy(t.ar) then t.ar else x0;
    var x2 := if lang == Fr && Truthy(t.fr) then t.fr else x1;
    x2
  }

  /** The `||` fallback of the dish detail screen, starting from a given base value:
      the variant of the selected language when it is truthy, otherwise the base. */
  function LocalizeOr(base: Field, t: Texts, lang: Lang): (r: Field)
    ensures lang == Ar && Truthy(t.ar) ==> r == t.ar
    ensures lang == Fr && Truthy(t.fr) ==> r == t.fr
    ensures !(lang == Ar && Truthy(t.ar)) && !(lang == Fr && Truthy(t.fr)) ==> r == base
  {
    var x1 := if lang == Ar then Or(t.ar, base) else base;
    var x2 := if lang == Fr then Or(t.fr, x1) else x1;
    x2
  }

  /** The two spellings of the fallback pick the same text, so the detail screen names
      a dish (and a size) as the dish card does. */
  lemma LocalizeOrAgrees(t: Texts, lang: Lang)
    ensures LocalizeOr(t.en, t, lang) == Localize(t, lang)
  {
  }

  /** The description on the detail screen: its base is `description_en || ''`, so it
      is always a string, and it is the guarded fallback with a missing text read as
      the empty string. */
  function DishDescription(d: Dish, lang: Lang): (r: Field)
    ensures r.Some?
    ensures Truthy(Localize(d.description, lang)) ==> r == Localize(d.description, lang)
    ensures !Truthy(Localize(d.description, lang)) ==> r == Some("")
  {
    LocalizeOr(Or(d.description.en, Some("")), d.description, lang)
  }
}
