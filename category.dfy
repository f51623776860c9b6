/**
 * The category set of src/utils/category.rs: `Category` is a name whose
 * equality and hash are derived from that name, and `CategoryList` wraps a
 * `HashSet<Category>` that `create_category` inserts into.
 */
module CategoryStore {

  /** `struct Category`: equal exactly when the names are equal. */
  datatype Category = Category(name: string)

  /** The set after inserting the category called `name`. */
  function WithCategory(categories: set<Category>, name: string): (r: set<Category>)
    ensures Category(name) in r
    ensures categories <= r
    ensures r - categories <= {Category(name)}
  {
    categories + {Category(name)}
  }

  /** Inserting grows the set by one exactly when the name is new, and otherwise leaves it as it was. */
  lemma {:induction false} WithCategorySize(categories: set<Category>, name: string)
    ensures Category(name) in categories ==> WithCategory(categories, name) == categories
    ensures Category(name) !in categories ==> |WithCategory(categories, name)| == |categories| + 1
  {
  }

  /** Inserting the same name twice is inserting it once. */
  lemma {:induction false} WithCategoryIdempotent(categories: set<Category>, name: string)
    ensures WithCategory(WithCategory(categories, name), name) == WithCategory(categories, name)
  {
  }

  /** The names in a set of categories. */
  function Names(categories: set<Category>): (r: set<string>)
    ensures forall c :: c in categories ==> c.name in r
    ensures forall n :: n in r ==> Category(n) in categories
  {
    set c | c in categories :: c.name
  }

  /** Distinct categories have distinct names, so there are as many names as categories. */
  lemma {:induction false} NamesSize(categories: set<Category>)
    ensures |Names(categories)| == |categories|
    decreases |categories|
  {
    if categories != {} {
      var c :| c in categories;
      var rest := categories - {c};
      NamesSize(rest);
      assert Names(categories) == Names(rest) + {c.name};
      assert c.name !in Names(rest);
    }
  }

  /** `struct CategoryList(HashSet<Category>)`. */
  class CategoryList {
    var categories: set<Category>

    /** A list holding the given categories. */
    constructor (initial: set<Category>)
      ensures categories == initial
    {
      categories := initial;
    }

    /**
     * `create_category`: afterwards the category called `name` is present,
     * every category present before still is, and nothing else was added.
     */
    method CreateCategory(name: string)
      modifies this
      ensures categories == WithCategory(old(categories), name)
    {
      categories := categories + {Category(name)};
    }

    /**
     * `print_categories`: the names, one line each, in the set's iteration
     * order (left open here). The set is not changed.
     */
    method PrintCategories() returns (lines: seq<string>)
      ensures |lines| == |categories|
      ensures forall i :: 0 <= i < |lines| ==> Category(lines[i]) in categories
      ensures forall c :: c in categories ==> c.name in lines
    {
      lines := [];
      var rest := categories;
      while rest != {}
        invariant rest <= categories
        invariant |lines| + |rest| == |categories|
        invariant forall i :: 0 <= i < |lines| ==> Category(lines[i]) in categories - rest
        invariant forall c :: c in categories - rest ==> c.name in lines
        decreases |rest|
      {
        var c :| c in rest;
        lines := lines + [c.name];
        rest := rest - {c};
      }
    }
  }
}
