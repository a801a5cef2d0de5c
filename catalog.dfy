/** What the two in-memory servers share: records kept in a list and addressed
    by an integer id, and the category entity with its create, update, delete
    and name-lookup logic (identical in both servers). */
module Catalog {
  import opened Values
  import opened Arrays

  /** `x.id === parseInt(param)`. A parameter that does not parse is `NaN`, here
      `None`, and `NaN` equals nothing. */
  predicate Matches(id: int, key: Option<int>) {
    key == Some(id)
  }

  function Unmatched<T>(idOf: T -> int, key: Option<int>): T -> bool {
    x => !Matches(idOf(x), key)
  }

  /** `xs.findIndex(x => x.id === key)`: the first record carrying `key`. */
  function IndexOfId<T>(xs: seq<T>, idOf: T -> int, key: Option<int>): (r: Option<nat>)
    ensures r.Some? ==> r.value < |xs| && Matches(idOf(xs[r.value]), key)
    ensures r.Some? ==> forall j :: 0 <= j < r.value ==> !Matches(idOf(xs[j]), key)
    ensures r.None? <==> forall j :: 0 <= j < |xs| ==> !Matches(idOf(xs[j]), key)
  {
    FindIndex(xs, x => Matches(idOf(x), key))
  }

  /** `xs.filter(x => x.id !== key)`: every record carrying `key` is dropped,
      every other one is kept. */
  function WithoutId<T(==)>(xs: seq<T>, idOf: T -> int, key: Option<int>): (r: seq<T>)
    ensures |r| <= |xs|
    ensures forall i :: 0 <= i < |r| ==> r[i] in xs && !Matches(idOf(r[i]), key)
    ensures forall i :: 0 <= i < |xs| && !Matches(idOf(xs[i]), key) ==> xs[i] in r
  {
    Filter(xs, Unmatched(idOf, key))
  }

  /** Deleting distributes over concatenation: the survivors keep their order. */
  lemma WithoutIdConcat<T>(a: seq<T>, b: seq<T>, idOf: T -> int, key: Option<int>)
    ensures WithoutId(a + b, idOf, key) == WithoutId(a, idOf, key) + WithoutId(b, idOf, key)
  {
    FilterConcat(a, b, Unmatched(idOf, key));
  }

  /** Deleting an id that no record carries (or an id that did not parse)
      leaves the list as it was. */
  lemma WithoutAbsentId<T>(xs: seq<T>, idOf: T -> int, key: Option<int>)
    requires IndexOfId(xs, idOf, key).None?
    ensures WithoutId(xs, idOf, key) == xs
  {
    FilterKeepsAll(xs, Unmatched(idOf, key));
  }

  /** Deleting an id carried by exactly one record removes just that record. */
  lemma WithoutUniqueId<T>(xs: seq<T>, idOf: T -> int, key: Option<int>, k: nat)
    requires k < |xs| && Matches(idOf(xs[k]), key)
    requires forall j :: 0 <= j < |xs| && j != k ==> !Matches(idOf(xs[j]), key)
    ensures WithoutId(xs, idOf, key) == xs[..k] + xs[k + 1..]
  {
    var keep := Unmatched(idOf, key);
    var before, after := xs[..k], xs[k + 1..];
    assert xs == (before + [xs[k]]) + after;
    assert forall i :: 0 <= i < |before| ==> keep(before[i]) by {
      forall i | 0 <= i < |before| ensures keep(before[i]) {
        assert before[i] == xs[i];
      }
    }
    assert forall i :: 0 <= i < |after| ==> keep(after[i]) by {
      forall i | 0 <= i < |after| ensures keep(after[i]) {
        assert after[i] == xs[k + 1 + i];
      }
    }
    assert !keep(xs[k]);
    calc {
      Filter(xs, keep);
      Filter((before + [xs[k]]) + after, keep);
      { FilterConcat(before + [xs[k]], after, keep); }
      Filter(before + [xs[k]], keep) + Filter(after, keep);
      { FilterConcat(before, [xs[k]], keep); }
      Filter(before, keep) + Filter([xs[k]], keep) + Filter(after, keep);
      { FilterKeepsAll(before, keep); FilterKeepsAll(after, keep); }
      before + Filter([xs[k]], keep) + after;
      { assert Filter([xs[k]], keep) == []; }
      before + after;
    }
  }

  /** Records whose ids run 1, 2, ..., n, as in both seed lists and as long as
      nothing has been deleted. */
  predicate NumberedFromOne<T>(xs: seq<T>, idOf: T -> int) {
    forall i :: 0 <= i < |xs| ==> idOf(xs[i]) == i + 1
  }

  /** Ids are not unique. Create assigns `length + 1`; after deleting any id but
      the last from a list numbered 1..n, the list is one shorter, so the next id
      handed out is n, and the last survivor already carries n. */
  lemma IdReuseAfterDelete<T>(xs: seq<T>, idOf: T -> int, k: int)
    requires NumberedFromOne(xs, idOf)
    requires 1 <= k < |xs|
    ensures WithoutId(xs, idOf, Some(k)) == xs[..k - 1] + xs[k..]
    ensures var ys := WithoutId(xs, idOf, Some(k));
            |ys| + 1 == |xs| && idOf(ys[|ys| - 1]) == |ys| + 1
  {
    WithoutUniqueId(xs, idOf, Some(k), k - 1);
  }

  // ---------------------------------------------------------------- categories

  datatype Category = Category(
    id: int,
    name: Field,
    description: Field,
    color: Field,
    icon: Field,
    createdAt: string)

  /** The fields of a create or update request body. */
  datatype CategoryBody = CategoryBody(name: Field, description: Field, color: Field, icon: Field)

  function CategoryId(c: Category): int {
    c.id
  }

  const DefaultColor := "#3b82f6"
  const DefaultIcon := "📁"
  /** The label shown for a product whose category cannot be named. */
  const Uncategorized := "غير مصنف"

  /** The four categories both in-memory servers start with. */
  function SeedCategories(now: string): seq<Category> {
    [ Category(1, Some("المقبلات"), Some("مقبلات لذيذة لبدء وجبتك"), Some("#ef4444"), Some("🥗"), now),
      Category(2, Some("الوجبات الرئيسية"), Some("وجبات رئيسية شهية"), Some("#3b82f6"), Some("🍕"), now),
      Category(3, Some("المشروبات"), Some("مشروبات منعشة"), Some("#10b981"), Some("🥤"), now),
      Category(4, Some("الحلويات"), Some("حلويات لذيذة"), Some("#f59e0b"), Some("🍰"), now) ]
  }

  lemma SeedCategoriesNumbered(now: string)
    ensures NumberedFromOne(SeedCategories(now), CategoryId)
  {
  }

  /** The category a create request adds: the given id, the body's name and
      description as sent, and a color and icon that are never blank, because a
      blank or missing one is replaced by the default. */
  function NewCategory(id: int, body: CategoryBody, now: string): (c: Category)
    ensures c.id == id && c.createdAt == now
    ensures c.name == body.name && c.description == body.description
    ensures Truthy(c.color) && Truthy(c.icon)
    ensures c.color == (if Truthy(body.color) then body.color else Some(DefaultColor))
    ensures c.icon == (if Truthy(body.icon) then body.icon else Some(DefaultIcon))
  {
    Category(id, body.name, body.description,
             Some(Prefer(body.color, DefaultColor)), Some(Prefer(body.icon, DefaultIcon)), now)
  }

  /** `{...c, name, description, color, icon}`: the id and creation time survive;
      the four fields take the body's values as sent, with no defaults, so a
      missing color or icon becomes `undefined`. */
  function Revise(c: Category, body: CategoryBody): (r: Category)
    ensures r.id == c.id && r.createdAt == c.createdAt
    ensures r.name == body.name && r.description == body.description
    ensures r.color == body.color && r.icon == body.icon
  {
    c.(name := body.name, description := body.description, color := body.color, icon := body.icon)
  }

  /** `categories.find(cat => cat.id === key)?.name || "غير مصنف"`: the name of
      the first category carrying `key`, or the fallback label when there is no
      such category or its name is blank. */
  function CategoryLabel(cs: seq<Category>, key: Option<int>): (name: string)
    ensures name != ""
    ensures (forall j :: 0 <= j < |cs| ==> !Matches(cs[j].id, key)) ==> name == Uncategorized
    ensures forall k :: 0 <= k < |cs| && Matches(cs[k].id, key)
                        && (forall j :: 0 <= j < k ==> !Matches(cs[j].id, key))
                        ==> name == Prefer(cs[k].name, Uncategorized)
  {
    match IndexOfId(cs, CategoryId, key)
    case None => Uncategorized
    case Some(k) => Prefer(cs[k].name, Uncategorized)
  }

  /** A created category can be reached by update (which picks the first match)
      exactly when no older category already carries its id. */
  lemma CreatedReachable(cs: seq<Category>, c: Category)
    ensures IndexOfId(cs + [c], CategoryId, Some(c.id)) == Some(|cs|)
            <==> forall j :: 0 <= j < |cs| ==> cs[j].id != c.id
  {
    var r := IndexOfId(cs + [c], CategoryId, Some(c.id));
    if forall j :: 0 <= j < |cs| ==> cs[j].id != c.id {
      assert (cs + [c])[|cs|] == c;
      assert forall j :: 0 <= j < |cs| ==> (cs + [c])[j] == cs[j];
    } else {
      var j :| 0 <= j < |cs| && cs[j].id == c.id;
      assert (cs + [c])[j] == cs[j];
    }
  }

  /** After a category is deleted, every product that pointed at its id is
      labelled with the fallback: references dangle, they are not repaired. */
  lemma DeletedCategoryLabel(cs: seq<Category>, key: Option<int>)
    ensures CategoryLabel(WithoutId(cs, CategoryId, key), key) == Uncategorized
  {
  }

  /** After the first category carrying `key` is updated, products pointing at
      `key` are labelled with the new name (or the fallback when it is blank). */
  lemma RevisedLabel(cs: seq<Category>, key: Option<int>, body: CategoryBody)
    requires IndexOfId(cs, CategoryId, key).Some?
    ensures var k := IndexOfId(cs, CategoryId, key).value;
            CategoryLabel(cs[k := Revise(cs[k], body)], key) == Prefer(body.name, Uncategorized)
  {
    var k := IndexOfId(cs, CategoryId, key).value;
    var cs' := cs[k := Revise(cs[k], body)];
    assert Matches(cs'[k].id, key);
    assert forall j :: 0 <= j < k ==> cs'[j] == cs[j];
  }
}
