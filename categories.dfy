/** The category side menu (components/CategoryMenu.tsx): which categories are listed, which
    subcategories each one has, and which dropdown the mouse opens. */
module CategoryMenus {
  import opened Wrappers
  import opened Seqs
  import opened Catalog

  /** The filter callback `sub => sub.category_id === categoryId`. */
  function BelongsTo(categoryId: string): Subcategory -> bool {
    (s: Subcategory) => s.categoryId == categoryId
  }

  /** `getSubcategoriesForCategory(categoryId)`. */
  function SubcategoriesFor(subcategories: seq<Subcategory>, categoryId: string): seq<Subcategory> {
    Filter(subcategories, BelongsTo(categoryId))
  }

  /** Exactly the subcategories whose parent is `categoryId`, in their input order. */
  lemma SubcategoriesForExact(subcategories: seq<Subcategory>, categoryId: string, s: Subcategory)
    ensures s in SubcategoriesFor(subcategories, categoryId) <==> s in subcategories && s.categoryId == categoryId
    ensures IsSubsequence(SubcategoriesFor(subcategories, categoryId), subcategories)
    ensures multiset(SubcategoriesFor(subcategories, categoryId))[s]
        == if s.categoryId == categoryId then multiset(subcategories)[s] else 0
  {
    FilterMembership(subcategories, BelongsTo(categoryId), s);
    FilterIsSubsequence(subcategories, BelongsTo(categoryId));
    FilterCount(subcategories, BelongsTo(categoryId), s);
  }

  /** Some subcategory names `categoryId` as its parent. */
  ghost predicate HasChild(subcategories: seq<Subcategory>, categoryId: string) {
    exists s :: s in subcategories && s.categoryId == categoryId
  }

  /** The list of subcategories is non-empty exactly when some subcategory has this parent. */
  lemma SubcategoriesNonEmptyIff(subcategories: seq<Subcategory>, categoryId: string)
    ensures |SubcategoriesFor(subcategories, categoryId)| > 0 <==> HasChild(subcategories, categoryId)
  {
    var r := SubcategoriesFor(subcategories, categoryId);
    if |r| > 0 {
      SubcategoriesForExact(subcategories, categoryId, r[0]);
    }
    if HasChild(subcategories, categoryId) {
      var s :| s in subcategories && s.categoryId == categoryId;
      SubcategoriesForExact(subcategories, categoryId, s);
    }
  }

  /** `categoryHasProducts(category)`. */
  predicate CategoryHasProducts(subcategories: seq<Subcategory>, c: Category) {
    |SubcategoriesFor(subcategories, c.id)| > 0 || c.isActive
  }

  /** A category is kept exactly when it is active or has a subcategory. */
  lemma CategoryHasProductsIff(subcategories: seq<Subcategory>, c: Category)
    ensures CategoryHasProducts(subcategories, c) <==> c.isActive || HasChild(subcategories, c.id)
  {
    SubcategoriesNonEmptyIff(subcategories, c.id);
  }

  /** The filter callback `categoryHasProducts`, over the given subcategories. */
  function Shown(subcategories: seq<Subcategory>): Category -> bool {
    (c: Category) => CategoryHasProducts(subcategories, c)
  }

  /** `activeCategoriesWithProducts`. */
  function ActiveCategoriesWithProducts(categories: seq<Category>, subcategories: seq<Subcategory>): seq<Category> {
    Filter(categories, Shown(subcategories))
  }

  /** The listed categories keep the input order, and a category is listed exactly when it is in
      the input and is active or has a subcategory; in particular every active one is listed. */
  lemma ListedCategories(categories: seq<Category>, subcategories: seq<Subcategory>, c: Category)
    ensures IsSubsequence(ActiveCategoriesWithProducts(categories, subcategories), categories)
    ensures c in ActiveCategoriesWithProducts(categories, subcategories)
        <==> c in categories && (c.isActive || HasChild(subcategories, c.id))
    ensures c in categories && c.isActive ==> c in ActiveCategoriesWithProducts(categories, subcategories)
  {
    FilterIsSubsequence(categories, Shown(subcategories));
    FilterMembership(categories, Shown(subcategories), c);
    CategoryHasProductsIff(subcategories, c);
  }

  /** `hasSubcategories`: the chevron is drawn. */
  predicate HasSubcategories(subcategories: seq<Subcategory>, c: Category) {
    |SubcategoriesFor(subcategories, c.id)| > 0
  }

  /** `hasSubcategories && hoveredCategory === category.id`: the dropdown is open. */
  predicate DropdownOpen(subcategories: seq<Subcategory>, hovered: Option<string>, c: Category) {
    HasSubcategories(subcategories, c) && hovered == Some(c.id)
  }

  /** The chevron and the dropdown need a subcategory; the dropdown also needs the mouse over its
      row, and at most one id is hovered, so two open dropdowns belong to categories with the same
      id. */
  lemma DropdownNeedsSubcategories(subcategories: seq<Subcategory>, hovered: Option<string>, c: Category, d: Category)
    ensures DropdownOpen(subcategories, hovered, c) ==> HasChild(subcategories, c.id)
    ensures DropdownOpen(subcategories, hovered, c) && DropdownOpen(subcategories, hovered, d) ==> c.id == d.id
    ensures hovered == None ==> !DropdownOpen(subcategories, hovered, c)
  {
    SubcategoriesNonEmptyIff(subcategories, c.id);
  }

  /** The state of `CategoryMenu`: `hoveredCategory`. */
  class CategoryMenu {
    var hoveredCategory: Option<string>

    /** `useState(null)`. */
    constructor ()
      ensures hoveredCategory == None
    {
      hoveredCategory := None;
    }

    /** `onMouseEnter`: the mouse enters the row of category `id`. */
    method MouseEnter(id: string)
      modifies this
      ensures hoveredCategory == Some(id)
    {
      hoveredCategory := Some(id);
    }

    /** `onMouseLeave`: the mouse leaves a row. */
    method MouseLeave()
      modifies this
      ensures hoveredCategory == None
    {
      hoveredCategory := None;
    }

    /** After entering a row, the only dropdowns open are those of categories with that id, and
        that row's dropdown is open exactly when it has a subcategory. */
    lemma EnterOpensOnlyThatRow(subcategories: seq<Subcategory>, c: Category, d: Category)
      requires hoveredCategory == Some(c.id)
      ensures DropdownOpen(subcategories, hoveredCategory, c) <==> HasChild(subcategories, c.id)
      ensures DropdownOpen(subcategories, hoveredCategory, d) ==> d.id == c.id
    {
      SubcategoriesNonEmptyIff(subcategories, c.id);
    }
  }
}
