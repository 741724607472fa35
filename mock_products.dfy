/**
 * The module-level product catalog of src/data/mockProducts.ts: two arrays
 * (products and product versions) that `addProduct` and `addProductVersion`
 * push onto, the latter also pushing onto the first matching product's own
 * version list and touching its `updatedAt`.  The arrays are fields of a
 * class; the current instant is a parameter.
 */
module MockProducts {
  import opened Common
  import opened Types

  datatype ProductInput = ProductInput(name: string, description: string)

  datatype VersionInput = VersionInput(productId: string, version: string, releaseDate: int, notes: string)

  /** `versions.filter(v => v.productId === productId)`. */
  function VersionsOf(vs: seq<ProductVersion>, productId: string): (r: seq<ProductVersion>)
    ensures forall v :: v in r <==> v in vs && v.productId == productId
    ensures |r| <= |vs|
  {
    if |vs| == 0 then [] else
      var rest := VersionsOf(vs[..|vs| - 1], productId);
      var last := vs[|vs| - 1];
      assert vs == vs[..|vs| - 1] + [last];
      if last.productId == productId then rest + [last] else rest
  }

  /** The filter after an append: the old matches, then the new version if it matches. */
  lemma VersionsOfAppend(vs: seq<ProductVersion>, v: ProductVersion, productId: string)
    ensures VersionsOf(vs + [v], productId) == VersionsOf(vs, productId) + (if v.productId == productId then [v] else [])
  {
    assert (vs + [v])[..|vs|] == vs;
  }

  /** `products.find(p => p.id === productId)`, as the index of the first match. */
  function FindProduct(ps: seq<Product>, id: string): (k: Option<nat>)
    ensures k.Some? ==> k.value < |ps| && ps[k.value].id == id && forall j :: 0 <= j < k.value ==> ps[j].id != id
    ensures k.None? ==> forall j :: 0 <= j < |ps| ==> ps[j].id != id
  {
    FindBy(ps, (x: Product) => x.id, id)
  }

  lemma {:induction false} NatToStringLength(n: nat)
    ensures n >= 10 ==> |NatToString(n)| >= 2
  {
    if n >= 10 {
      assert |NatToString(n / 10)| >= 1;
    }
  }

  /** Distinct numbers print differently. */
  lemma {:induction false} NatToStringInjective(a: nat, b: nat)
    requires NatToString(a) == NatToString(b)
    ensures a == b
    decreases a
  {
    NatToStringLength(a);
    NatToStringLength(b);
    if a >= 10 && b >= 10 {
      var sa, sb := NatToString(a / 10), NatToString(b / 10);
      assert NatToString(a) == sa + [DigitChar(a % 10)];
      assert NatToString(b) == sb + [DigitChar(b % 10)];
      assert a % 10 == b % 10 by {
        assert NatToString(a)[|NatToString(a)| - 1] == DigitChar(a % 10);
        assert NatToString(b)[|NatToString(b)| - 1] == DigitChar(b % 10);
      }
      assert sa == NatToString(a)[..|NatToString(a)| - 1];
      assert sb == NatToString(b)[..|NatToString(b)| - 1];
      NatToStringInjective(a / 10, b / 10);
    } else if a < 10 && b < 10 {
      assert NatToString(a)[0] == DigitChar(a) && NatToString(b)[0] == DigitChar(b);
    }
  }

  /** "p1", "p2", … and "v1", "v2", … are all different. */
  lemma PrefixedNumbersDistinct(prefix: char, a: nat, b: nat)
    requires a != b
    ensures [prefix] + NatToString(a) != [prefix] + NatToString(b)
  {
    if [prefix] + NatToString(a) == [prefix] + NatToString(b) {
      assert NatToString(a) == ([prefix] + NatToString(a))[1..];
      NatToStringInjective(a, b);
    }
  }

  /** The i-th (0-based) entry of a list numbered from 1. */
  function NumberedId(prefix: char, i: nat): string {
    [prefix] + NatToString(i + 1)
  }

  predicate NumberedProducts(ps: seq<Product>) {
    forall i :: 0 <= i < |ps| ==> ps[i].id == NumberedId('p', i)
  }

  predicate NumberedVersions(vs: seq<ProductVersion>) {
    forall i :: 0 <= i < |vs| ==> vs[i].id == NumberedId('v', i)
  }

  /** Every product's own list holds exactly its versions of the global list, in order. */
  predicate ConsistentLists(ps: seq<Product>, vs: seq<ProductVersion>) {
    forall i :: 0 <= i < |ps| ==> ps[i].versions == VersionsOf(vs, ps[i].id)
  }

  /** Every version names a listed product. */
  predicate AttachedLists(ps: seq<Product>, vs: seq<ProductVersion>) {
    forall i :: 0 <= i < |vs| ==> FindProduct(ps, vs[i].productId).Some?
  }

  /** Numbered ids never repeat. */
  lemma ProductIdsUnique(ps: seq<Product>)
    requires NumberedProducts(ps)
    ensures forall i, j :: 0 <= i < j < |ps| ==> ps[i].id != ps[j].id
  {
    forall i, j | 0 <= i < j < |ps|
      ensures ps[i].id != ps[j].id
    {
      PrefixedNumbersDistinct('p', i + 1, j + 1);
    }
  }

  /** A product appended under the next number, with no versions, keeps the lists consistent as
      long as every version names a listed product. */
  lemma AppendProductKeepsConsistency(ps: seq<Product>, vs: seq<ProductVersion>, p: Product)
    requires NumberedProducts(ps) && ConsistentLists(ps, vs) && AttachedLists(ps, vs)
    requires p.id == NumberedId('p', |ps|) && p.versions == []
    ensures ConsistentLists(ps + [p], vs) && AttachedLists(ps + [p], vs)
  {
    var qs := ps + [p];
    forall k | 0 <= k < |vs|
      ensures vs[k].productId != p.id
    {
      var j := FindProduct(ps, vs[k].productId).value;
      PrefixedNumbersDistinct('p', j + 1, |ps| + 1);
    }
    NoneMatch(vs, p.id);
    forall k | 0 <= k < |vs|
      ensures FindProduct(qs, vs[k].productId).Some?
    {
      FindInPrefix(ps, p, vs[k].productId);
    }
  }

  lemma {:induction false} NoneMatch(vs: seq<ProductVersion>, id: string)
    requires forall k :: 0 <= k < |vs| ==> vs[k].productId != id
    ensures VersionsOf(vs, id) == []
    decreases |vs|
  {
    if |vs| > 0 {
      NoneMatch(vs[..|vs| - 1], id);
    }
  }

  lemma {:induction false} FindInPrefix(ps: seq<Product>, p: Product, id: string)
    requires FindProduct(ps, id).Some?
    ensures FindProduct(ps + [p], id) == FindProduct(ps, id)
    decreases |ps|
  {
    if ps[0].id != id {
      assert (ps + [p])[1..] == ps[1..] + [p];
      FindInPrefix(ps[1..], p, id);
    }
  }

  /** The product list after the version is pushed onto the first product with its id. */
  function Attach(ps: seq<Product>, v: ProductVersion, now: int): (qs: seq<Product>)
    ensures |qs| == |ps| && forall i :: 0 <= i < |ps| ==> qs[i].id == ps[i].id
  {
    match FindProduct(ps, v.productId)
    case None => ps
    case Some(k) => ps[k := ps[k].(versions := ps[k].versions + [v], updatedAt := now)]
  }

  /** Attaching the next numbered version keeps both lists numbered. */
  lemma AttachKeepsNumbering(ps: seq<Product>, vs: seq<ProductVersion>, v: ProductVersion, now: int)
    requires NumberedProducts(ps) && NumberedVersions(vs) && v.id == NumberedId('v', |vs|)
    ensures NumberedProducts(Attach(ps, v, now)) && NumberedVersions(vs + [v])
  {
    var ws := vs + [v];
    forall i | 0 <= i < |ws|
      ensures ws[i].id == NumberedId('v', i)
    {
      if i < |vs| { assert ws[i] == vs[i]; }
    }
  }

  /** Pushing onto the one product with that id (ids being unique) keeps the lists
      consistent; a version for an unlisted product keeps them consistent too, but detached. */
  lemma AttachKeepsConsistency(ps: seq<Product>, vs: seq<ProductVersion>, v: ProductVersion, now: int)
    requires NumberedProducts(ps) && ConsistentLists(ps, vs)
    ensures ConsistentLists(Attach(ps, v, now), vs + [v])
    ensures AttachedLists(ps, vs) && FindProduct(ps, v.productId).Some? ==> AttachedLists(Attach(ps, v, now), vs + [v])
  {
    ProductIdsUnique(ps);
    var qs := Attach(ps, v, now);
    forall i | 0 <= i < |qs|
      ensures qs[i].versions == VersionsOf(vs + [v], qs[i].id)
    {
      VersionsOfAppend(vs, v, qs[i].id);
    }
    if AttachedLists(ps, vs) && FindProduct(ps, v.productId).Some? {
      forall i | 0 <= i < |vs| + 1
        ensures FindProduct(qs, (vs + [v])[i].productId).Some?
      {
        SameIdsSameFind(ps, qs, (vs + [v])[i].productId);
      }
    }
  }

  /** The lookup only looks at ids. */
  lemma {:induction false} SameIdsSameFind(ps: seq<Product>, qs: seq<Product>, id: string)
    requires |ps| == |qs| && forall i :: 0 <= i < |ps| ==> ps[i].id == qs[i].id
    ensures FindProduct(ps, id) == FindProduct(qs, id)
    decreases |ps|
  {
    if |ps| > 0 {
      SameIdsSameFind(ps[1..], qs[1..], id);
    }
  }

  /** The four versions the module starts with (instants in milliseconds). */
  function SeedVersions(): (vs: seq<ProductVersion>)
    ensures |vs| == 4
  {
    [ProductVersion("v1", "p1", "1.0.0", 19372 * DayMs, "Initial release", 19372 * DayMs, 19372 * DayMs),
     ProductVersion("v2", "p1", "1.1.0", 19436 * DayMs, "Added user management features", 19436 * DayMs, 19436 * DayMs),
     ProductVersion("v3", "p2", "2.0.0", 19398 * DayMs, "Initial release", 19398 * DayMs, 19398 * DayMs),
     ProductVersion("v4", "p2", "2.1.0", 19482 * DayMs, "Performance improvements", 19482 * DayMs, 19482 * DayMs)]
  }

  /** The two products the module starts with, each listing its two versions. */
  function SeedProducts(): (ps: seq<Product>)
    ensures |ps| == 2
  {
    var vs := SeedVersions();
    [Product("p1", "Enterprise CRM", "Customer relationship management system for large enterprises",
             [vs[0], vs[1]], 19367 * DayMs, 19436 * DayMs),
     Product("p2", "SecureAuth Pro", "Advanced authentication and security system",
             [vs[2], vs[3]], 19393 * DayMs, 19482 * DayMs)]
  }

  /** Filtering four versions, of which exactly those whose flag is set match. */
  lemma FilterFour(a: ProductVersion, b: ProductVersion, c: ProductVersion, d: ProductVersion, x: string)
    ensures VersionsOf([a, b, c, d], x) ==
      (if a.productId == x then [a] else []) + (if b.productId == x then [b] else []) +
      (if c.productId == x then [c] else []) + (if d.productId == x then [d] else [])
  {
    var s1, s2, s3 := [a], [a, b], [a, b, c];
    assert s1 == [] + [a];
    VersionsOfAppend([], a, x);
    assert s2 == s1 + [b];
    VersionsOfAppend(s1, b, x);
    assert s3 == s2 + [c];
    VersionsOfAppend(s2, c, x);
    assert [a, b, c, d] == s3 + [d];
    VersionsOfAppend(s3, d, x);
  }

  lemma SeedNumbered()
    ensures NumberedProducts(SeedProducts()) && NumberedVersions(SeedVersions())
  {
    assert NumberedId('p', 0) == "p1" && NumberedId('p', 1) == "p2";
    assert NumberedId('v', 0) == "v1" && NumberedId('v', 1) == "v2";
    assert NumberedId('v', 2) == "v3" && NumberedId('v', 3) == "v4";
  }

  /** Each seed product lists exactly the seed versions that name it. */
  lemma SeedProductConsistent(j: nat)
    requires j < 2
    ensures SeedProducts()[j].versions == VersionsOf(SeedVersions(), SeedProducts()[j].id)
  {
    var vs := SeedVersions();
    assert vs == [vs[0], vs[1], vs[2], vs[3]];
    assert "p1" != "p2" by { assert "p1"[1] != "p2"[1]; }
    FilterFour(vs[0], vs[1], vs[2], vs[3], SeedProducts()[j].id);
  }

  lemma SeedConsistent()
    ensures ConsistentLists(SeedProducts(), SeedVersions())
  {
    forall j | 0 <= j < |SeedProducts()|
      ensures SeedProducts()[j].versions == VersionsOf(SeedVersions(), SeedProducts()[j].id)
    {
      SeedProductConsistent(j);
    }
  }

  lemma SeedAttached()
    ensures AttachedLists(SeedProducts(), SeedVersions())
  {
    var vs, ps := SeedVersions(), SeedProducts();
    assert FindProduct(ps, "p1").Some? && FindProduct(ps, "p2").Some?;
    assert forall i :: 0 <= i < 4 ==> vs[i].productId == "p1" || vs[i].productId == "p2";
  }

  /** The fixture is numbered, consistent and attached. */
  lemma SeedWellFormed()
    ensures NumberedProducts(SeedProducts()) && NumberedVersions(SeedVersions())
    ensures ConsistentLists(SeedProducts(), SeedVersions()) && AttachedLists(SeedProducts(), SeedVersions())
  {
    SeedNumbered();
    SeedConsistent();
    SeedAttached();
  }

  /** The module's two arrays. */
  class Catalog {
    var products: seq<Product>
    var versions: seq<ProductVersion>

    /** The ids are numbered by position. */
    predicate Valid()
      reads this
    {
      NumberedProducts(products) && NumberedVersions(versions)
    }

    predicate Consistent()
      reads this
    {
      ConsistentLists(products, versions)
    }

    predicate Attached()
      reads this
    {
      AttachedLists(products, versions)
    }

    /** The two products and four versions the module starts with. */
    constructor Seeded()
      ensures Valid() && Consistent() && Attached()
      ensures products == SeedProducts() && versions == SeedVersions()
    {
      products := SeedProducts();
      versions := SeedVersions();
      SeedWellFormed();
    }

    /** getVersionsByProductId. */
    function GetVersionsByProductId(productId: string): (r: seq<ProductVersion>)
      reads this
      ensures forall v :: v in r <==> v in versions && v.productId == productId
    {
      VersionsOf(versions, productId)
    }

    /** addProduct: one product, numbered after the last, with no versions.  Consistency is kept
        while every version names a listed product.  The source reads the clock once for each
        timestamp; `now` stands for both readings. */
    method AddProduct(input: ProductInput, now: int) returns (p: Product)
      requires Valid()
      modifies this
      ensures Valid()
      ensures p == Product(NumberedId('p', |old(products)|), input.name, input.description, [], now, now)
      ensures products == old(products) + [p] && versions == old(versions)
      ensures old(Consistent() && Attached()) ==> Consistent() && Attached()
    {
      p := Product("p" + NatToString(|products| + 1), input.name, input.description, [], now, now);
      if Consistent() && Attached() {
        AppendProductKeepsConsistency(products, versions, p);
      }
      products := products + [p];
    }

    /** addProductVersion: one version, numbered after the last, appended to the global list
        and to the first product with that id, whose `updatedAt` becomes now. */
    method AddProductVersion(input: VersionInput, now: int) returns (v: ProductVersion)
      requires Valid()
      modifies this
      ensures Valid()
      ensures v == ProductVersion(NumberedId('v', |old(versions)|), input.productId, input.version, input.releaseDate,
                                  input.notes, now, now)
      ensures versions == old(versions) + [v]
      ensures products == Attach(old(products), v, now)
      ensures old(Consistent()) ==> Consistent()
      ensures old(Attached()) && FindProduct(old(products), input.productId).Some? ==> Attached()
    {
      v := ProductVersion("v" + NatToString(|versions| + 1), input.productId, input.version, input.releaseDate,
                          input.notes, now, now);
      ghost var ps, vs := products, versions;
      AttachKeepsNumbering(ps, vs, v, now);
      if ConsistentLists(ps, vs) {
        AttachKeepsConsistency(ps, vs, v, now);
      }
      versions := versions + [v];
      var k := FindProduct(products, input.productId);
      if k.Some? {
        var p := products[k.value];
        products := products[k.value := p.(versions := p.versions + [v], updatedAt := now)];
      }
      assert products == Attach(ps, v, now);
    }
  }
}
