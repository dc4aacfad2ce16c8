// The catalog store: categories, currencies, household members, payment
// methods and tags, with the guards that refuse to delete items still in
// use, the reorderings, and the tag edits that reach into the subscriptions
// store. An item's position is `sortOrder`, the name the stores use; the
// schemas call it `order`, and only ParsedNewTag keeps the two apart.

module CatalogStore {
  import opened Common
  import opened Schema
  import SubscriptionsStore

  // ---------------------------------------------------------------------
  // Lookups shared by every catalog list
  // ---------------------------------------------------------------------

  /** `list.find(x => x.id === id)`, as the index of the first match or -1. */
  function FirstWith<T>(xs: seq<T>, idOf: T -> string, id: string): (r: int)
    ensures -1 <= r < |xs|
    ensures r == -1 <==> forall i :: 0 <= i < |xs| ==> idOf(xs[i]) != id
    ensures r >= 0 ==> idOf(xs[r]) == id && forall i :: 0 <= i < r ==> idOf(xs[i]) != id
  {
    if xs == [] then -1
    else if idOf(xs[0]) == id then 0
    else
      var k := FirstWith(xs[1..], idOf, id);
      if k < 0 then -1 else k + 1
  }

  /** No two items share an id. */
  predicate UniqueIds<T>(xs: seq<T>, idOf: T -> string)
  {
    forall i, j :: 0 <= i < j < |xs| ==> idOf(xs[i]) != idOf(xs[j])
  }

  /** The last position of `x` in `s`, or -1. */
  function LastIndex(s: seq<string>, x: string): (r: int)
    ensures -1 <= r < |s|
    ensures r == -1 <==> x !in s
    ensures r >= 0 ==> s[r] == x && forall i :: r < i < |s| ==> s[i] != x
  {
    if s == [] then -1
    else if s[|s| - 1] == x then |s| - 1
    else LastIndex(s[..|s| - 1], x)
  }

  // ---------------------------------------------------------------------
  // Reordering
  // ---------------------------------------------------------------------

  /** `ids.forEach((id, i) => { find(id).sortOrder = i })` over a list. */
  function Reordered<T(!new)>(xs: seq<T>, ids: seq<string>, idOf: T -> string, withOrder: (T, int) -> T): (r: seq<T>)
    requires forall x, o :: idOf(withOrder(x, o)) == idOf(x)
    ensures |r| == |xs| && forall i :: 0 <= i < |xs| ==> idOf(r[i]) == idOf(xs[i])
  {
    if ids == [] then xs
    else
      var r := Reordered(xs, ids[..|ids| - 1], idOf, withOrder);
      var k := FirstWith(r, idOf, ids[|ids| - 1]);
      if k < 0 then r else r[k := withOrder(r[k], |ids| - 1)]
  }

  /** Two lists with the same ids in the same places find the same index. */
  lemma FirstWithSameIds<T>(a: seq<T>, b: seq<T>, idOf: T -> string, id: string)
    requires |a| == |b| && forall i :: 0 <= i < |a| ==> idOf(a[i]) == idOf(b[i])
    ensures FirstWith(a, idOf, id) == FirstWith(b, idOf, id)
  {
  }

  /** With unique ids, reordering gives each listed item the position of its
      last mention in `ids` as its order, and leaves unlisted items alone. */
  lemma {:induction false} ReorderedSpec<T(!new)>(xs: seq<T>, ids: seq<string>, idOf: T -> string, withOrder: (T, int) -> T)
    requires forall x, o :: idOf(withOrder(x, o)) == idOf(x)
    requires forall x, a, b :: withOrder(withOrder(x, a), b) == withOrder(x, b)
    requires UniqueIds(xs, idOf)
    ensures forall j :: 0 <= j < |xs| && idOf(xs[j]) in ids ==>
      Reordered(xs, ids, idOf, withOrder)[j] == withOrder(xs[j], LastIndex(ids, idOf(xs[j])))
    ensures forall j :: 0 <= j < |xs| && idOf(xs[j]) !in ids ==> Reordered(xs, ids, idOf, withOrder)[j] == xs[j]
  {
    if ids != [] {
      var front := ids[..|ids| - 1];
      var last := ids[|ids| - 1];
      ReorderedSpec(xs, front, idOf, withOrder);
      var r := Reordered(xs, front, idOf, withOrder);
      FirstWithSameIds(r, xs, idOf, last);
      var k := FirstWith(xs, idOf, last);
      forall j | 0 <= j < |xs|
        ensures idOf(xs[j]) in ids ==>
          Reordered(xs, ids, idOf, withOrder)[j] == withOrder(xs[j], LastIndex(ids, idOf(xs[j])))
        ensures idOf(xs[j]) !in ids ==> Reordered(xs, ids, idOf, withOrder)[j] == xs[j]
      {
        if idOf(xs[j]) == last {
          assert k == j;
        } else {
          assert idOf(xs[j]) in ids <==> idOf(xs[j]) in front;
        }
      }
    }
  }

  /** The loop of every reorder*: one find-and-assign per listed id. */
  method ReorderLoop<T(!new)>(xs: seq<T>, ids: seq<string>, idOf: T -> string, withOrder: (T, int) -> T) returns (r: seq<T>)
    requires forall x, o :: idOf(withOrder(x, o)) == idOf(x)
    ensures r == Reordered(xs, ids, idOf, withOrder)
  {
    r := xs;
    var i := 0;
    while i < |ids|
      invariant 0 <= i <= |ids|
      invariant r == Reordered(xs, ids[..i], idOf, withOrder)
    {
      var k := FirstWith(r, idOf, ids[i]);
      if k != -1 {
        r := r[k := withOrder(r[k], i)];
      }
      assert ids[..i + 1][..i] == ids[..i];
      i := i + 1;
    }
    assert ids[..i] == ids;
  }

  function CategoryId(c: Category): string { c.id }
  function CategoryOrder(c: Category, o: int): Category { c.(sortOrder := o) }
  function CurrencyId(c: Currency): string { c.id }
  function CurrencyOrder(c: Currency, o: int): Currency { c.(sortOrder := o) }
  function MethodId(p: PaymentMethod): string { p.id }
  function MethodOrder(p: PaymentMethod, o: int): PaymentMethod { p.(sortOrder := o) }
  function TagId(t: Tag): string { t.id }
  function TagOrder(t: Tag, o: int): Tag { t.(sortOrder := o) }

  /** reorderCategories: the category at position i of `ids` gets order i,
      unlisted ones keep theirs, and the list keeps its members. */
  lemma ReorderCategoriesSpec(cats: seq<Category>, ids: seq<string>)
    requires UniqueIds(cats, CategoryId)
    ensures var r := Reordered(cats, ids, CategoryId, CategoryOrder);
      && |r| == |cats|
      && (forall j :: 0 <= j < |cats| && cats[j].id in ids ==>
            r[j] == cats[j].(sortOrder := LastIndex(ids, cats[j].id)) && ids[r[j].sortOrder] == cats[j].id)
      && (forall j :: 0 <= j < |cats| && cats[j].id !in ids ==> r[j] == cats[j])
  {
    ReorderedSpec(cats, ids, CategoryId, CategoryOrder);
  }

  // ---------------------------------------------------------------------
  // Guards and derived lists
  // ---------------------------------------------------------------------

  /** deleteCategory's guard: never the default category, never one in use. */
  predicate CanDeleteCategory(id: string, subs: seq<Subscription>)
  {
    id != "cat-1" && forall s :: s in subs ==> s.categoryId != id
  }

  /** deleteCurrency's guard: never the main currency, never one in use. */
  predicate CanDeleteCurrency(id: string, mainCurrencyId: string, subs: seq<Subscription>)
  {
    id != mainCurrencyId && forall s :: s in subs ==> s.currencyId != id
  }

  /** deleteHouseholdMember's guard: at least two members, not the first,
      and not a payer. */
  predicate CanDeleteMember(id: string, household: seq<HouseholdMember>, subs: seq<Subscription>)
  {
    |household| > 1 && id != household[0].id && forall s :: s in subs ==> s.payerUserId != id
  }

  /** deletePaymentMethod's guard: not in use. */
  predicate CanDeleteMethod(id: string, subs: seq<Subscription>)
  {
    forall s :: s in subs ==> s.paymentMethodId != id
  }

  /** `favoriteTags`. */
  function FavoriteTags(tags: seq<Tag>): (r: seq<Tag>)
    ensures forall t :: t in r <==> t in tags && t.favorite
  {
    Filter(tags, (t: Tag) => t.favorite)
  }

  /** `enabledPaymentMethods`. */
  function EnabledMethods(methods: seq<PaymentMethod>): (r: seq<PaymentMethod>)
    ensures forall p :: p in r <==> p in methods && p.enabled
  {
    Filter(methods, (p: PaymentMethod) => p.enabled)
  }

  /** `mainCurrency`: the settings' main currency when listed, else the
      first currency, else none. */
  function MainCurrency(currencies: seq<Currency>, mainCurrencyId: string): (r: Option<Currency>)
    ensures r.None? <==> currencies == []
    ensures r.Some? && r.value.id != mainCurrencyId ==>
      r.value == currencies[0] && forall c :: c in currencies ==> c.id != mainCurrencyId
    ensures r.Some? ==> r.value in currencies
  {
    var k := FirstWith(currencies, CurrencyId, mainCurrencyId);
    if k >= 0 then Some(currencies[k])
    else if currencies != [] then Some(currencies[0])
    else None
  }

  // ---------------------------------------------------------------------
  // Tags
  // ---------------------------------------------------------------------

  /** `Partial<Tag>`: the fields an update carries. */
  datatype TagPatch = TagPatch(
    id: Option<string>, name: Option<string>, favorite: Option<bool>, sortOrder: Option<int>, i18nKey: Option<string>)

  /** `Object.assign(tag, updates)`. */
  function Assign(t: Tag, p: TagPatch): (r: Tag)
    ensures p.name.Some? ==> r.name == p.name.value
    ensures p.name.None? ==> r.name == t.name
  {
    Tag(if p.id.Some? then p.id.value else t.id,
        if p.name.Some? then p.name.value else t.name,
        if p.favorite.Some? then p.favorite.value else t.favorite,
        if p.sortOrder.Some? then p.sortOrder.value else t.sortOrder,
        if p.i18nKey.Some? then p.i18nKey.value else t.i18nKey)
  }

  /** updateTag's edit of the subscriptions: the first occurrence of the old
      name in each tag list becomes the new one. */
  function RenamedInSubs(subs: seq<Subscription>, oldName: string, newName: string): (r: seq<Subscription>)
    ensures |r| == |subs|
  {
    seq(|subs|, i requires 0 <= i < |subs| => subs[i].(tags := ReplaceFirst(subs[i].tags, oldName, newName)))
  }

  /** deleteTag's edit of the subscriptions: every occurrence removed. */
  function StrippedFromSubs(subs: seq<Subscription>, name: string): (r: seq<Subscription>)
    ensures |r| == |subs|
  {
    seq(|subs|, i requires 0 <= i < |subs| => StripTag(subs[i], name))
  }

  /** One subscription with every occurrence of tag `name` removed. */
  function StripTag(s: Subscription, name: string): Subscription
  {
    if name in s.tags then s.(tags := RemoveAll(s.tags, name)) else s
  }

  /** After a rename every subscription that had the old name has the new
      one at its first place, and nothing else changed. */
  lemma RenameSpec(subs: seq<Subscription>, oldName: string, newName: string)
    ensures forall i :: 0 <= i < |subs| && oldName in subs[i].tags ==>
      var k := IndexOf(subs[i].tags, oldName);
      var r := RenamedInSubs(subs, oldName, newName)[i];
      && |r.tags| == |subs[i].tags|
      && r.tags[k] == newName
      && oldName !in subs[i].tags[..k]
      && (forall j :: 0 <= j < |subs[i].tags| && j != k ==> r.tags[j] == subs[i].tags[j])
      && r.(tags := subs[i].tags) == subs[i]
    ensures forall i :: 0 <= i < |subs| && oldName !in subs[i].tags ==> RenamedInSubs(subs, oldName, newName)[i] == subs[i]
  {
    forall i | 0 <= i < |subs|
      ensures |ReplaceFirst(subs[i].tags, oldName, newName)| == |subs[i].tags|
      ensures oldName !in subs[i].tags ==> ReplaceFirst(subs[i].tags, oldName, newName) == subs[i].tags
      ensures oldName in subs[i].tags ==>
        var k := IndexOf(subs[i].tags, oldName);
        oldName !in subs[i].tags[..k]
        && forall j :: 0 <= j < |subs[i].tags| && j != k ==> ReplaceFirst(subs[i].tags, oldName, newName)[j] == subs[i].tags[j]
    {
      ReplaceFirstSpec(subs[i].tags, oldName, newName);
    }
  }

  /** After a delete no subscription carries the name, and the other tags
      are kept. */
  lemma StripSpec(subs: seq<Subscription>, name: string)
    ensures forall i :: 0 <= i < |subs| ==> name !in StrippedFromSubs(subs, name)[i].tags
    ensures forall i, t :: 0 <= i < |subs| && t != name ==> (t in StrippedFromSubs(subs, name)[i].tags <==> t in subs[i].tags)
  {
  }

  /** The tag addTag pushes, as the schema parses it: the schema knows the
      field as `order`, so the `sortOrder` handed to it is dropped and the
      default 0 is used. */
  function ParsedNewTag(name: string, id: string, maxOrder: int): Tag
  {
    Tag(id, Trim(name), true, 0, "")
  }

  /** The tag addTag evidently means: the trimmed name, a favourite, placed
      after every existing tag. */
  function NewTag(name: string, id: string, maxOrder: int): Tag
  {
    Tag(id, Trim(name), true, maxOrder + 1, "")
  }

  /** As written, a new tag is not placed after the existing ones: whatever
      the largest existing order, the added tag gets order 0, so an existing
      tag with a non-negative order (the seeded "Free Tier" has 6) is not
      before it. */
  lemma NewTagLosesOrder(name: string, id: string, maxOrder: int, tags: seq<Tag>)
    requires exists t :: t in tags && t.sortOrder >= 0
    ensures ParsedNewTag(name, id, maxOrder).sortOrder == 0
    ensures !(forall t :: t in tags ==> t.sortOrder < ParsedNewTag(name, id, maxOrder).sortOrder)
  {
  }

  /** As intended, a new tag follows every existing one. */
  lemma NewTagComesLast(name: string, id: string, maxOrder: int, tags: seq<Tag>)
    requires forall t :: t in tags ==> t.sortOrder <= maxOrder
    ensures forall t :: t in tags ==> t.sortOrder < NewTag(name, id, maxOrder).sortOrder
    ensures NewTag(name, id, maxOrder).name == Trim(name) && NewTag(name, id, maxOrder).favorite
  {
  }

  /** The catalog lists of a `Partial<AppData>`, each possibly absent. */
  datatype LoadedCatalogs = LoadedCatalogs(
    categories: Option<seq<Category>>, currencies: Option<seq<Currency>>, household: Option<seq<HouseholdMember>>,
    paymentMethods: Option<seq<PaymentMethod>>, tags: Option<seq<Tag>>)

  // ---------------------------------------------------------------------
  // The store
  // ---------------------------------------------------------------------

  class Store {
    var categories: seq<Category>
    var currencies: seq<Currency>
    var household: seq<HouseholdMember>
    var paymentMethods: seq<PaymentMethod>
    var tags: seq<Tag>

    constructor ()
      ensures categories == [] && currencies == [] && household == [] && paymentMethods == [] && tags == []
    {
      categories, currencies, household, paymentMethods, tags := [], [], [], [], [];
    }

    /** $hydrate: each list present in the loaded data replaces the store's. */
    method Hydrate(data: LoadedCatalogs)
      modifies this
      ensures categories == (if data.categories.Some? then data.categories.value else old(categories))
      ensures currencies == (if data.currencies.Some? then data.currencies.value else old(currencies))
      ensures household == (if data.household.Some? then data.household.value else old(household))
      ensures paymentMethods == (if data.paymentMethods.Some? then data.paymentMethods.value else old(paymentMethods))
      ensures tags == (if data.tags.Some? then data.tags.value else old(tags))
    {
      if data.categories.Some? { categories := data.categories.value; }
      if data.currencies.Some? { currencies := data.currencies.value; }
      if data.household.Some? { household := data.household.value; }
      if data.paymentMethods.Some? { paymentMethods := data.paymentMethods.value; }
      if data.tags.Some? { tags := data.tags.value; }
    }

    /** updateCategory: the first category with the id is renamed, and its
        icon replaced when one is given. */
    method UpdateCategory(id: string, name: string, icon: Option<string>)
      modifies this`categories
      ensures var k := FirstWith(old(categories), CategoryId, id);
        categories == if k < 0 then old(categories)
          else old(categories)[k := old(categories)[k].(name := name,
                                    icon := if icon.Some? then icon.value else old(categories)[k].icon)]
    {
      var k := FirstWith(categories, CategoryId, id);
      if k != -1 {
        var c := categories[k].(name := name);
        if icon.Some? {
          c := c.(icon := icon.value);
        }
        categories := categories[k := c];
      }
    }

    /** deleteCategory. */
    method DeleteCategory(id: string, subs: SubscriptionsStore.Store) returns (ok: bool)
      modifies this
      ensures ok == CanDeleteCategory(id, subs.subscriptions)
      ensures ok ==> categories == Filter(old(categories), (c: Category) => c.id != id)
      ensures !ok ==> categories == old(categories)
      ensures currencies == old(currencies) && household == old(household)
      ensures paymentMethods == old(paymentMethods) && tags == old(tags)
    {
      if id == "cat-1" {
        return false;
      }
      if exists s :: s in subs.subscriptions && s.categoryId == id {
        return false;
      }
      categories := Filter(categories, (c: Category) => c.id != id);
      return true;
    }

    /** deleteCurrency. */
    method DeleteCurrency(id: string, mainCurrencyId: string, subs: SubscriptionsStore.Store) returns (ok: bool)
      modifies this
      ensures ok == CanDeleteCurrency(id, mainCurrencyId, subs.subscriptions)
      ensures ok ==> currencies == Filter(old(currencies), (c: Currency) => c.id != id)
      ensures !ok ==> currencies == old(currencies)
      ensures categories == old(categories) && household == old(household)
      ensures paymentMethods == old(paymentMethods) && tags == old(tags)
    {
      if id == mainCurrencyId {
        return false;
      }
      if exists s :: s in subs.subscriptions && s.currencyId == id {
        return false;
      }
      currencies := Filter(currencies, (c: Currency) => c.id != id);
      return true;
    }

    /** deleteHouseholdMember. */
    method DeleteHouseholdMember(id: string, subs: SubscriptionsStore.Store) returns (ok: bool)
      modifies this
      ensures ok == CanDeleteMember(id, old(household), subs.subscriptions)
      ensures ok ==> household == Filter(old(household), (h: HouseholdMember) => h.id != id)
      ensures !ok ==> household == old(household)
      ensures categories == old(categories) && currencies == old(currencies)
      ensures paymentMethods == old(paymentMethods) && tags == old(tags)
    {
      if |household| <= 1 {
        return false;
      }
      if id == household[0].id {
        return false;
      }
      if exists s :: s in subs.subscriptions && s.payerUserId == id {
        return false;
      }
      household := Filter(household, (h: HouseholdMember) => h.id != id);
      return true;
    }

    /** deletePaymentMethod. */
    method DeletePaymentMethod(id: string, subs: SubscriptionsStore.Store) returns (ok: bool)
      modifies this
      ensures ok == CanDeleteMethod(id, subs.subscriptions)
      ensures ok ==> paymentMethods == Filter(old(paymentMethods), (p: PaymentMethod) => p.id != id)
      ensures !ok ==> paymentMethods == old(paymentMethods)
      ensures categories == old(categories) && currencies == old(currencies)
      ensures household == old(household) && tags == old(tags)
    {
      if exists s :: s in subs.subscriptions && s.paymentMethodId == id {
        return false;
      }
      paymentMethods := Filter(paymentMethods, (p: PaymentMethod) => p.id != id);
      return true;
    }

    /** togglePaymentMethod: flips the first method with the id, except that
        a method in use is never disabled. */
    method TogglePaymentMethod(id: string, subs: SubscriptionsStore.Store)
      modifies this`paymentMethods
      ensures var k := FirstWith(old(paymentMethods), MethodId, id);
        paymentMethods == if k < 0 || (!CanDeleteMethod(id, subs.subscriptions) && old(paymentMethods)[k].enabled)
          then old(paymentMethods)
          else old(paymentMethods)[k := old(paymentMethods)[k].(enabled := !old(paymentMethods)[k].enabled)]
      ensures forall i :: (0 <= i < |paymentMethods| && old(paymentMethods)[i].enabled && old(paymentMethods)[i].id == id
                && !CanDeleteMethod(id, subs.subscriptions)) ==> paymentMethods[i].enabled
    {
      var k := FirstWith(paymentMethods, MethodId, id);
      if k == -1 {
        return;
      }
      var pm := paymentMethods[k];
      if (exists s :: s in subs.subscriptions && s.paymentMethodId == id) && pm.enabled {
        return;
      }
      paymentMethods := paymentMethods[k := pm.(enabled := !pm.enabled)];
    }

    method ReorderCategories(ids: seq<string>)
      modifies this`categories
      ensures categories == Reordered(old(categories), ids, CategoryId, CategoryOrder)
    {
      categories := ReorderLoop(categories, ids, CategoryId, CategoryOrder);
    }

    method ReorderCurrencies(ids: seq<string>)
      modifies this`currencies
      ensures currencies == Reordered(old(currencies), ids, CurrencyId, CurrencyOrder)
    {
      currencies := ReorderLoop(currencies, ids, CurrencyId, CurrencyOrder);
    }

    method ReorderPaymentMethods(ids: seq<string>)
      modifies this`paymentMethods
      ensures paymentMethods == Reordered(old(paymentMethods), ids, MethodId, MethodOrder)
    {
      paymentMethods := ReorderLoop(paymentMethods, ids, MethodId, MethodOrder);
    }

    method ReorderTags(ids: seq<string>)
      modifies this`tags
      ensures tags == Reordered(old(tags), ids, TagId, TagOrder)
    {
      tags := ReorderLoop(tags, ids, TagId, TagOrder);
    }

    /** addTag: `maxOrder` is the largest stored order. */
    method AddTag(name: string, id: string, maxOrder: int) returns (tag: Tag)
      modifies this`tags
      ensures tag == NewTag(name, id, maxOrder) && tags == old(tags) + [tag]
    {
      tag := NewTag(name, id, maxOrder);
      tags := tags + [tag];
    }

    /** toggleTagFavorite: flips the first tag with the id. */
    method ToggleTagFavorite(id: string)
      modifies this`tags
      ensures var k := FirstWith(old(tags), TagId, id);
        tags == if k < 0 then old(tags) else old(tags)[k := old(tags)[k].(favorite := !old(tags)[k].favorite)]
    {
      var k := FirstWith(tags, TagId, id);
      if k != -1 {
        tags := tags[k := tags[k].(favorite := !tags[k].favorite)];
      }
    }

    /** ensureTag: "" for a blank name; otherwise the trimmed name, added
        as a tag only when no tag has that name yet. */
    method EnsureTag(name: string, id: string, maxOrder: int) returns (n: string)
      modifies this`tags
      ensures n == Trim(name)
      ensures n == "" || (exists t :: t in old(tags) && t.name == n) ==> tags == old(tags)
      ensures n != "" && (forall t :: t in old(tags) ==> t.name != n) ==> tags == old(tags) + [NewTag(n, id, maxOrder)]
      ensures n != "" ==> exists t :: t in tags && t.name == n
    {
      n := Trim(name);
      if n == "" {
        return "";
      }
      if !exists t :: t in tags && t.name == n {
        var tag := AddTag(n, id, maxOrder);
        TrimIdempotent(name);
        assert tag in tags;
      }
    }

    /** updateTag: a truthy new name that differs is first renamed in every
        subscription; then the patch is assigned to the tag. */
    method UpdateTag(id: string, updates: TagPatch, subs: SubscriptionsStore.Store)
      modifies this`tags, subs`subscriptions
      ensures var k := FirstWith(old(tags), TagId, id);
        && (k < 0 ==> tags == old(tags) && subs.subscriptions == old(subs.subscriptions))
        && (k >= 0 ==> tags == old(tags)[k := Assign(old(tags)[k], updates)])
        && (k >= 0 && updates.name.Some? && updates.name.value != "" && updates.name.value != old(tags)[k].name ==>
              subs.subscriptions == RenamedInSubs(old(subs.subscriptions), old(tags)[k].name, updates.name.value))
        && (k >= 0 && !(updates.name.Some? && updates.name.value != "" && updates.name.value != old(tags)[k].name) ==>
              subs.subscriptions == old(subs.subscriptions))
    {
      var k := FirstWith(tags, TagId, id);
      if k == -1 {
        return;
      }
      var tag := tags[k];
      if updates.name.Some? && updates.name.value != "" && updates.name.value != tag.name {
        var oldName, newName := tag.name, updates.name.value;
        ghost var before := subs.subscriptions;
        var i := 0;
        while i < |subs.subscriptions|
          invariant 0 <= i <= |subs.subscriptions| == |before|
          invariant forall j :: 0 <= j < i ==>
            subs.subscriptions[j] == before[j].(tags := ReplaceFirst(before[j].tags, oldName, newName))
          invariant forall j :: i <= j < |before| ==> subs.subscriptions[j] == before[j]
          modifies subs`subscriptions
        {
          var sub := subs.subscriptions[i];
          var si := IndexOf(sub.tags, oldName);
          if si != -1 {
            subs.subscriptions := subs.subscriptions[i := sub.(tags := sub.tags[si := newName])];
          }
          assert subs.subscriptions[i] == before[i].(tags := ReplaceFirst(before[i].tags, oldName, newName));
          i := i + 1;
        }
        assert subs.subscriptions == RenamedInSubs(before, oldName, newName);
      }
      tags := tags[k := Assign(tag, updates)];
    }

    /** deleteTag: the tag goes, and its name leaves every subscription. */
    method DeleteTag(id: string, subs: SubscriptionsStore.Store)
      modifies this`tags, subs`subscriptions
      ensures var k := FirstWith(old(tags), TagId, id);
        && (k < 0 ==> tags == old(tags) && subs.subscriptions == old(subs.subscriptions))
        && (k >= 0 ==> (tags == Filter(old(tags), (t: Tag) => t.id != id)
              && subs.subscriptions == StrippedFromSubs(old(subs.subscriptions), old(tags)[k].name)))
    {
      var k := FirstWith(tags, TagId, id);
      if k == -1 {
        return;
      }
      var name := tags[k].name;
      tags := Filter(tags, (t: Tag) => t.id != id);
      ghost var before := subs.subscriptions;
      var i := 0;
      while i < |subs.subscriptions|
        invariant 0 <= i <= |subs.subscriptions| == |before|
        invariant forall j :: 0 <= j < i ==> subs.subscriptions[j] == StripTag(before[j], name)
        invariant forall j :: i <= j < |before| ==> subs.subscriptions[j] == before[j]
        modifies subs`subscriptions
      {
        var sub := subs.subscriptions[i];
        if name in sub.tags {
          subs.subscriptions := subs.subscriptions[i := sub.(tags := RemoveAll(sub.tags, name))];
        }
        assert subs.subscriptions[i] == StripTag(before[i], name);
        i := i + 1;
      }
      assert subs.subscriptions == StrippedFromSubs(before, name);
    }
  }
}
