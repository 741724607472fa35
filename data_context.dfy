/**
 * The application-wide store of src/context/DataContext.tsx: four lists
 * (products, product versions, customers, licenses) and the four `add*`
 * operations that append to them.  React's state setters become field
 * updates of one object; the random id generator and the current instant
 * are parameters.
 */
module DataContext {
  import opened Types
  import opened MockProducts

  datatype CustomerInput = CustomerInput(
    name: string, location: string, country: string, contact: string, mobile: string, email: string)

  /** `prev.map(p => p.id === id ? {...p, versions: [...p.versions, v]} : p)`: every product
      with that id gets the version, the rest are untouched. */
  function AttachAll(ps: seq<Product>, v: ProductVersion): (qs: seq<Product>)
    ensures |qs| == |ps|
    ensures forall i :: 0 <= i < |ps| && ps[i].id == v.productId ==> qs[i] == ps[i].(versions := ps[i].versions + [v])
    ensures forall i :: 0 <= i < |ps| && ps[i].id != v.productId ==> qs[i] == ps[i]
  {
    seq(|ps|, i requires 0 <= i < |ps| =>
      if ps[i].id == v.productId then ps[i].(versions := ps[i].versions + [v]) else ps[i])
  }

  /** Attaching to every match keeps each product's list equal to its filtered versions. */
  lemma AttachAllKeepsConsistency(ps: seq<Product>, vs: seq<ProductVersion>, v: ProductVersion)
    requires ConsistentLists(ps, vs)
    ensures ConsistentLists(AttachAll(ps, v), vs + [v])
  {
    var qs := AttachAll(ps, v);
    forall i | 0 <= i < |qs|
      ensures qs[i].versions == VersionsOf(vs + [v], qs[i].id)
    {
      VersionsOfAppend(vs, v, ps[i].id);
    }
  }

  class DataStore {
    var products: seq<Product>
    var productVersions: seq<ProductVersion>
    var customers: seq<Customer>
    var licenses: seq<License>

    /** Each product lists exactly its versions from the global list. */
    predicate Consistent()
      reads this
    {
      ConsistentLists(products, productVersions)
    }

    /** The provider starts with four empty lists. */
    constructor ()
      ensures products == [] && productVersions == [] && customers == [] && licenses == []
      ensures Consistent()
    {
      products, productVersions, customers, licenses := [], [], [], [];
    }

    /** addProduct: one product with a "p" id, no versions and equal timestamps; nothing else
        changes.  A generated id that no version names keeps the store consistent. */
    method AddProduct(name: string, description: string, genId: string, now: int) returns (p: Product)
      modifies this
      ensures p == Product("p" + genId, name, description, [], now, now)
      ensures products == old(products) + [p]
      ensures productVersions == old(productVersions) && customers == old(customers) && licenses == old(licenses)
      ensures old(Consistent()) && (forall k :: 0 <= k < |productVersions| ==> productVersions[k].productId != p.id)
              ==> Consistent()
    {
      p := Product("p" + genId, name, description, [], now, now);
      if Consistent() && forall k :: 0 <= k < |productVersions| ==> productVersions[k].productId != p.id {
        NoneMatch(productVersions, p.id);
      }
      products := products + [p];
    }

    /** addProductVersion: one version with a "v" id and equal timestamps, appended to the global
        list and to every product with its product id; customers and licenses are unchanged.
        Consistency is kept whatever the ids. */
    method AddProductVersion(productId: string, version: string, releaseDate: int, notes: string,
                             genId: string, now: int) returns (v: ProductVersion)
      modifies this
      ensures v == ProductVersion("v" + genId, productId, version, releaseDate, notes, now, now)
      ensures productVersions == old(productVersions) + [v]
      ensures products == AttachAll(old(products), v)
      ensures customers == old(customers) && licenses == old(licenses)
      ensures old(Consistent()) ==> Consistent()
    {
      v := ProductVersion("v" + genId, productId, version, releaseDate, notes, now, now);
      if Consistent() {
        AttachAllKeepsConsistency(products, productVersions, v);
      }
      productVersions := productVersions + [v];
      products := AttachAll(products, v);
    }

    /** addCustomer: one customer with a "c" id and equal timestamps; nothing else changes. */
    method AddCustomer(input: CustomerInput, genId: string, now: int) returns (c: Customer)
      modifies this
      ensures c == Customer("c" + genId, input.name, input.location, input.country, input.contact,
                            input.mobile, input.email, now, now)
      ensures customers == old(customers) + [c]
      ensures products == old(products) && productVersions == old(productVersions) && licenses == old(licenses)
    {
      c := Customer("c" + genId, input.name, input.location, input.country, input.contact,
                    input.mobile, input.email, now, now);
      customers := customers + [c];
    }

    /** addLicense: the draft's fields under an "l" id with equal timestamps; nothing else changes.
        The input type leaves out the id and the timestamps, so the draft's fields of those names
        stand for nothing and are replaced. */
    method AddLicense(draft: License, genId: string, now: int) returns (l: License)
      modifies this
      ensures l == draft.(id := "l" + genId, createdAt := now, updatedAt := now)
      ensures licenses == old(licenses) + [l]
      ensures products == old(products) && productVersions == old(productVersions) && customers == old(customers)
    {
      l := draft.(id := "l" + genId, createdAt := now, updatedAt := now);
      licenses := licenses + [l];
    }
  }

  /** Unlike the catalog's first-match push, a duplicated product id gets the version on every
      copy, so the store stays consistent even then. */
  lemma DuplicateIdsBothReceive(p: Product, v: ProductVersion)
    requires p.id == v.productId
    ensures AttachAll([p, p], v) == [p.(versions := p.versions + [v]), p.(versions := p.versions + [v])]
  {
  }

  /** A version for an unknown product leaves every product as it was. */
  lemma {:induction false} UnknownProductUntouched(ps: seq<Product>, v: ProductVersion)
    requires FindProduct(ps, v.productId).None?
    ensures AttachAll(ps, v) == ps
  {
    assert forall i :: 0 <= i < |ps| ==> ps[i].id != v.productId;
  }
}
