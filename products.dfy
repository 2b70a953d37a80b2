/** The product catalogue: category filtering and the poster image derived from each model path. */
module Products {
  import opened Marking

  datatype Product = Product(id: nat, name: string, category: string, model: string)

  /** The products the page lists. */
  const Catalogue := [
    Product(1, "ELLA", "earcuff", "assets/ELLA.glb"),
    Product(2, "ORION", "ring", "assets/ORION.glb"),
    Product(3, "AERIX", "necklace", "assets/AERIX.glb")
  ]

  /** The category value that selects every product. */
  const All := "all"

  /** `products.filter(p => p.category === category)`. */
  function WithCategory(products: seq<Product>, category: string): (r: seq<Product>)
    ensures |r| <= |products|
    ensures forall p :: p in r ==> p.category == category
  {
    if products == [] then []
    else (if products[0].category == category then [products[0]] else []) + WithCategory(products[1..], category)
  }

  /** The filter keeps each product of the category as often as the input has it, and nothing else. */
  lemma {:induction false} WithCategoryCounts(products: seq<Product>, category: string, p: Product)
    ensures multiset(WithCategory(products, category))[p]
         == if p.category == category then multiset(products)[p] else 0
  {
    if products != [] {
      var head := if products[0].category == category then [products[0]] else [];
      assert products == [products[0]] + products[1..];
      assert multiset(products) == multiset([products[0]]) + multiset(products[1..]);
      assert multiset(WithCategory(products, category))
          == multiset(head) + multiset(WithCategory(products[1..], category));
      WithCategoryCounts(products[1..], category, p);
    }
  }

  /** Filtering keeps the input's order: it distributes over concatenation. */
  lemma {:induction false} WithCategoryAppend(a: seq<Product>, b: seq<Product>, category: string)
    ensures WithCategory(a + b, category) == WithCategory(a, category) + WithCategory(b, category)
  {
    if a != [] {
      var ab := a + b;
      assert ab[0] == a[0];
      assert ab[1..] == a[1..] + b;
      WithCategoryAppend(a[1..], b, category);
      var head := if a[0].category == category then [a[0]] else [];
      assert WithCategory(ab, category) == head + WithCategory(a[1..] + b, category);
      assert WithCategory(a, category) == head + WithCategory(a[1..], category);
    } else {
      assert a + b == b;
    }
  }

  /**
   * `filterProducts(category)`: the products to show ("all" shows the list as it is, any other value
   * the products of that category) and which filter buttons end up active (those whose category
   * equals the chosen one).
   */
  method FilterProducts(products: seq<Product>, buttonCategories: seq<string>, category: string)
    returns (shown: seq<Product>, active: seq<bool>)
    ensures category == All ==> shown == products
    ensures category != All ==> shown == WithCategory(products, category)
    ensures |active| == |buttonCategories|
    ensures forall j :: 0 <= j < |buttonCategories| ==> (active[j] <==> buttonCategories[j] == category)
  {
    shown := if category == All then products else WithCategory(products, category);
    active := MarkActive(buttonCategories, category);
  }

  /** Each category of the catalogue selects its one product. */
  lemma CatalogueByCategory()
    ensures WithCategory(Catalogue, "earcuff") == [Catalogue[0]]
    ensures WithCategory(Catalogue, "ring") == [Catalogue[1]]
    ensures WithCategory(Catalogue, "necklace") == [Catalogue[2]]
  {
  }

  /** Whether `pat` occurs in `s` starting at position `k`. */
  predicate OccursAt(s: string, pat: string, k: int)
  {
    0 <= k && k + |pat| <= |s| && s[k..k + |pat|] == pat
  }

  /** `s.indexOf(pat)`: the first position where `pat` occurs, or -1 when it does not occur. */
  function IndexOf(s: string, pat: string): (r: int)
    ensures r == -1 || OccursAt(s, pat, r)
    ensures r >= 0 ==> forall j :: 0 <= j < r ==> !OccursAt(s, pat, j)
    ensures r == -1 ==> forall j :: !OccursAt(s, pat, j)
    decreases |s|
  {
    if |s| < |pat| then -1
    else if s[..|pat|] == pat then 0
    else
      var r := IndexOf(s[1..], pat);
      assert !OccursAt(s, pat, 0) by {
        assert s[0..|pat|] == s[..|pat|];
      }
      assert forall j :: 1 <= j ==> (OccursAt(s, pat, j) <==> OccursAt(s[1..], pat, j - 1)) by {
        forall j | 1 <= j
          ensures OccursAt(s, pat, j) <==> OccursAt(s[1..], pat, j - 1)
        {
          if j + |pat| <= |s| {
            assert s[1..][j - 1..j - 1 + |pat|] == s[j..j + |pat|];
          }
        }
      }
      if r == -1 then -1 else r + 1
  }

  /**
   * `s.replace(pat, rep)` with a string pattern: when `pat` first occurs at `k`, the text there is
   * replaced and the rest is kept; a pattern that does not occur leaves the string unchanged.
   */
  function ReplaceFirst(s: string, pat: string, rep: string): (r: string)
    ensures forall k :: OccursAt(s, pat, k) && (forall j :: 0 <= j < k ==> !OccursAt(s, pat, j))
                        ==> r == s[..k] + rep + s[k + |pat|..]
    ensures (forall j :: !OccursAt(s, pat, j)) ==> r == s
  {
    var k := IndexOf(s, pat);
    if k == -1 then s else s[..k] + rep + s[k + |pat|..]
  }

  /** The poster of a product card: the first "assets/" becomes "assets/posters/", then the first ".glb" becomes ".png". */
  function PosterPath(model: string): string
  {
    ReplaceFirst(ReplaceFirst(model, "assets/", "assets/posters/"), ".glb", ".png")
  }

  /** The first step of the poster path: the leading "assets/" becomes "assets/posters/". */
  lemma PosterDirectory(name: string)
    ensures ReplaceFirst("assets/" + name + ".glb", "assets/", "assets/posters/") == "assets/posters/" + name + ".glb"
  {
    var model := "assets/" + name + ".glb";
    assert OccursAt(model, "assets/", 0);
    assert model[7..] == name + ".glb";
  }

  /** The second step: in `assets/posters/NAME.glb` with no dot in NAME, the first ".glb" is the extension. */
  lemma PosterExtension(name: string)
    requires '.' !in name
    ensures ReplaceFirst("assets/posters/" + name + ".glb", ".glb", ".png") == "assets/posters/" + name + ".png"
  {
    var moved := "assets/posters/" + name + ".glb";
    var at := 15 + |name|;
    assert moved[at..at + 4] == ".glb";
    forall j | 0 <= j < at
      ensures !OccursAt(moved, ".glb", j)
    {
      if j < 15 {
        assert moved[j] == "assets/posters/"[j];
        assert '.' !in "assets/posters/";
      } else {
        assert moved[j] == name[j - 15];
      }
      assert moved[j] != '.';
      if j + 4 <= |moved| {
        assert moved[j..j + 4][0] == moved[j];
      }
    }
    assert OccursAt(moved, ".glb", at);
    assert moved[..at] == "assets/posters/" + name;
    assert moved[at + 4..] == [];
  }

  /** A model file `assets/NAME.glb` whose name has no dot gets the poster `assets/posters/NAME.png`. */
  lemma PosterPathOfModel(name: string)
    requires '.' !in name
    ensures PosterPath("assets/" + name + ".glb") == "assets/posters/" + name + ".png"
  {
    PosterDirectory(name);
    PosterExtension(name);
  }

  /** A model path with neither "assets/" nor ".glb" in it is its own poster path. */
  lemma PosterPathUnmatched(model: string)
    requires forall j :: !OccursAt(model, "assets/", j)
    requires forall j :: !OccursAt(model, ".glb", j)
    ensures PosterPath(model) == model
  {
  }

}
