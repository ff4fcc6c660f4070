/** The screens of the ordering flow, the fixed parent map that the back button
    follows, and the circular previous/next index arithmetic of the dish detail
    screen. */
module Navigation {
  import opened JsValues

  /** `state.view`: `language`, `type`, `category`, `dish` (the dish grid),
      `dish-detail`, `cart` and `confirmation`. */
  datatype View =
    | LanguageView
    | TypeView
    | CategoryView
    | DishView
    | DishDetailView
    | CartView
    | ConfirmationView

  /** Where `goBack` leads from each screen; screens it has no branch for stay put. */
  function Parent(v: View): View {
    match v
    case CartView => DishView
    case DishDetailView => DishView
    case DishView => CategoryView
    case CategoryView => TypeView
    case TypeView => LanguageView
    case LanguageView => LanguageView
    case ConfirmationView => ConfirmationView
  }

  /** How many presses of back separate a screen from the language screen (the
      confirmation screen, which back does not leave, gets 0). */
  function Depth(v: View): nat {
    match v
    case LanguageView => 0
    case ConfirmationView => 0
    case TypeView => 1
    case CategoryView => 2
    case DishView => 3
    case DishDetailView => 4
    case CartView => 4
  }

  /** The screen reached after pressing back `k` times from `v`. */
  function BackN(v: View, k: nat): View
    decreases k
  {
    if k == 0 then v else BackN(Parent(v), k - 1)
  }

  /** Back leaves exactly the language and confirmation screens unchanged, and from
      every other screen it moves one step closer to the language screen. */
  lemma ParentShortensPath(v: View)
    ensures Parent(v) == v <==> v == LanguageView || v == ConfirmationView
    ensures v != LanguageView && v != ConfirmationView ==> Depth(Parent(v)) == Depth(v) - 1
  {
  }

  /** Back never leads to the detail, cart or confirmation screens from elsewhere. */
  lemma ParentTargets(v: View)
    ensures Parent(v) in {LanguageView, TypeView, CategoryView, DishView} || Parent(v) == v
    ensures Parent(v) == ConfirmationView ==> v == ConfirmationView
  {
  }

  /** The back chain is acyclic: from any screen but confirmation, pressing back
      `Depth(v)` times reaches the language screen, and pressing it more keeps it there. */
  lemma {:induction false} BackReachesLanguage(v: View, extra: nat)
    requires v != ConfirmationView
    ensures BackN(v, Depth(v) + extra) == LanguageView
    decreases Depth(v)
  {
    if v == LanguageView {
      LanguageIsFixed(extra);
    } else {
      ParentShortensPath(v);
      BackReachesLanguage(Parent(v), extra);
    }
  }

  lemma {:induction false} LanguageIsFixed(k: nat)
    ensures BackN(LanguageView, k) == LanguageView
  {
    if k > 0 {
      LanguageIsFixed(k - 1);
    }
  }

  /** The index shown by the previous button: `(i - 1 + n) % n` with JavaScript's `%`. */
  function PrevIndex(i: int, n: int): int
    requires n > 0
  {
    TruncRem(i - 1 + n, n)
  }

  /** The index shown by the next button: `(i + 1) % n` with JavaScript's `%`. */
  function NextIndex(i: int, n: int): int
    requires n > 0
  {
    TruncRem(i + 1, n)
  }

  /** For an index found in a list of length `n`, previous is one step back with
      wrap-around from the first to the last dish. */
  lemma PrevIndexSteps(i: int, n: int)
    requires 0 <= i < n
    ensures PrevIndex(i, n) == if i == 0 then n - 1 else i - 1
  {
    ModInRange(i - 1 + n, n);
  }

  /** Next is one step forward with wrap-around from the last to the first dish. */
  lemma NextIndexSteps(i: int, n: int)
    requires 0 <= i < n
    ensures NextIndex(i, n) == if i == n - 1 then 0 else i + 1
  {
    ModInRange(i + 1, n);
  }

  /** Both buttons stay inside the list, and each undoes the other. */
  lemma PrevNextRoundTrip(i: int, n: int)
    requires 0 <= i < n
    ensures 0 <= PrevIndex(i, n) < n && 0 <= NextIndex(i, n) < n
    ensures NextIndex(PrevIndex(i, n), n) == i
    ensures PrevIndex(NextIndex(i, n), n) == i
  {
    PrevIndexSteps(i, n);
    NextIndexSteps(i, n);
    PrevIndexSteps(NextIndex(i, n), n);
    NextIndexSteps(PrevIndex(i, n), n);
  }

  /** Euclidean remainder of a value between 0 and 2n - 1. */
  lemma ModInRange(x: int, n: int)
    requires n > 0 && 0 <= x < 2 * n
    ensures x % n == if x < n then x else x - n
  {
    if x < n {
      assert x == n * 0 + x;
    } else {
      assert x == n * 1 + (x - n);
    }
  }
}
