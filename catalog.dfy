/**
 * The product catalog: new products are put first, updates merge a partial
 * record into the first product with the id, removal filters the id out,
 * and an empty catalog can be seeded with three demo products.
 */
module Catalog {
  import opened Wrappers
  import Lists

  /** A product; the price is the number `Number(price)` gave, kept exact here. */
  datatype Product = Product(
    id: string, title: string, price: real, desc: string,
    image: string, sellerId: string, created: int)

  /**
   * The `data` object of `updateProduct`: a field is Some when `data` has it.
   * Any of the product's fields may be given, the id included.
   */
  datatype ProductPatch = ProductPatch(
    id: Option<string>, title: Option<string>, price: Option<real>, desc: Option<string>,
    image: Option<string>, sellerId: Option<string>, created: Option<int>)

  const NotFound := "Not found"
  const System := "system"

  /** A patch that gives no field. */
  const NoChange := ProductPatch(None, None, None, None, None, None, None)

  /** `{...p, ...data}`: each field present in `data` wins, every other field of `p` is kept. */
  function Merge(p: Product, data: ProductPatch): (r: Product)
    ensures data.id.Some? ==> r.id == data.id.value
    ensures data.id.None? ==> r.id == p.id
    ensures data.title.Some? ==> r.title == data.title.value
    ensures data.title.None? ==> r.title == p.title
    ensures data.price.Some? ==> r.price == data.price.value
    ensures data.price.None? ==> r.price == p.price
    ensures data.desc.Some? ==> r.desc == data.desc.value
    ensures data.desc.None? ==> r.desc == p.desc
    ensures data.image.Some? ==> r.image == data.image.value
    ensures data.image.None? ==> r.image == p.image
    ensures data.sellerId.Some? ==> r.sellerId == data.sellerId.value
    ensures data.sellerId.None? ==> r.sellerId == p.sellerId
    ensures data.created.Some? ==> r.created == data.created.value
    ensures data.created.None? ==> r.created == p.created
  {
    Product(
      data.id.GetOr(p.id), data.title.GetOr(p.title), data.price.GetOr(p.price),
      data.desc.GetOr(p.desc), data.image.GetOr(p.image), data.sellerId.GetOr(p.sellerId),
      data.created.GetOr(p.created))
  }

  /** `{...d1, ...d2}`: the later patch wins field by field. */
  function Combine(d1: ProductPatch, d2: ProductPatch): ProductPatch {
    ProductPatch(
      if d2.id.Some? then d2.id else d1.id,
      if d2.title.Some? then d2.title else d1.title,
      if d2.price.Some? then d2.price else d1.price,
      if d2.desc.Some? then d2.desc else d1.desc,
      if d2.image.Some? then d2.image else d1.image,
      if d2.sellerId.Some? then d2.sellerId else d1.sellerId,
      if d2.created.Some? then d2.created else d1.created)
  }

  /** Merging an empty patch keeps the product. */
  lemma MergeNoChange(p: Product)
    ensures Merge(p, NoChange) == p
  {
  }

  /** Two successive updates of a product are one update with the combined patch. */
  lemma MergeTwice(p: Product, d1: ProductPatch, d2: ProductPatch)
    ensures Merge(Merge(p, d1), d2) == Merge(p, Combine(d1, d2))
  {
  }

  /** The test `x => x.id === id`. */
  function HasId(id: string): Product -> bool {
    (p: Product) => p.id == id
  }

  /** The test `p => p.id !== id`. */
  function OtherThan(id: string): Product -> bool {
    (p: Product) => p.id != id
  }

  /** `products.findIndex(x => x.id === id)`, None for -1. */
  function ProductIndex(products: seq<Product>, id: string): (r: Option<nat>)
    ensures r.Some? ==> r.value < |products| && products[r.value].id == id
    ensures r.Some? ==> forall j :: 0 <= j < r.value ==> products[j].id != id
    ensures r.None? <==> forall j :: 0 <= j < |products| ==> products[j].id != id
  {
    Lists.FirstIndex(products, HasId(id))
  }

  /** The catalog after `updateProduct(id, data)`, or the "Not found" failure. */
  function Update(products: seq<Product>, id: string, data: ProductPatch): (r: Result<seq<Product>>)
    ensures r.Err? <==> forall j :: 0 <= j < |products| ==> products[j].id != id
    ensures r.Err? ==> r.error == NotFound
    ensures r.Ok? ==> |r.value| == |products|
    ensures r.Ok? ==>
      var i := ProductIndex(products, id).value;
      r.value[i] == Merge(products[i], data) &&
      forall j :: 0 <= j < |products| && j != i ==> r.value[j] == products[j]
  {
    match ProductIndex(products, id)
    case None => Err(NotFound)
    case Some(i) => Ok(products[i := Merge(products[i], data)])
  }

  /** The catalog after `removeProduct(id)`. */
  function Remove(products: seq<Product>, id: string): (r: seq<Product>)
    ensures forall j :: 0 <= j < |r| ==> r[j].id != id
    ensures forall p :: p in r <==> p in products && p.id != id
    ensures forall p :: multiset(r)[p] == if p.id != id then multiset(products)[p] else 0
    ensures Lists.IsSubsequence(r, products)
  {
    var r := Lists.Filter(products, OtherThan(id));
    forall j | 0 <= j < |r| ensures r[j].id != id {
      assert r[j] in r;
    }
    r
  }

  /** Removing an id no product has leaves the catalog as it was. */
  lemma RemoveAbsent(products: seq<Product>, id: string)
    requires forall j :: 0 <= j < |products| ==> products[j].id != id
    ensures Remove(products, id) == products
  {
    Lists.FilterKeepsAll(products, OtherThan(id));
  }

  /** Removing twice is removing once. */
  lemma RemoveTwice(products: seq<Product>, id: string)
    ensures Remove(Remove(products, id), id) == Remove(products, id)
  {
    RemoveAbsent(Remove(products, id), id);
  }

  /** The three demo products, sold by "system"; the ids and the time are the caller's. */
  function Samples(id1: string, id2: string, id3: string, now: int): (r: seq<Product>)
    ensures |r| == 3
    ensures forall j :: 0 <= j < |r| ==> r[j].sellerId == System && r[j].created == now && r[j].price >= 0.0
    ensures r[0].id == id1 && r[1].id == id2 && r[2].id == id3
  {
    [ Product(id1, "Pro Photo Presets Pack", 9.99, "10 professional Lightroom presets",
              "https://picsum.photos/seed/preset/600/400", System, now),
      Product(id2, "Minimal Website Template (HTML)", 14.00, "A clean responsive HTML template",
              "https://picsum.photos/seed/template/600/400", System, now),
      Product(id3, "E-book: Productivity Hacks", 4.50, "Short e-book on boosting focus",
              "https://picsum.photos/seed/ebook/600/400", System, now) ]
  }

  /** The catalog after `seedProductsIfEmpty()`. */
  function SeedIfEmpty(products: seq<Product>, id1: string, id2: string, id3: string, now: int): (r: seq<Product>)
    ensures |products| == 0 ==> |r| == 3 && r == Samples(id1, id2, id3, now)
    ensures |products| > 0 ==> r == products
  {
    if |products| == 0 then Samples(id1, id2, id3, now) else products
  }

  /** Seeding a second time, with any ids and time, changes nothing. */
  lemma SeedTwice(products: seq<Product>, a1: string, a2: string, a3: string, t1: int,
                  b1: string, b2: string, b3: string, t2: int)
    ensures SeedIfEmpty(SeedIfEmpty(products, a1, a2, a3, t1), b1, b2, b3, t2) ==
            SeedIfEmpty(products, a1, a2, a3, t1)
  {
  }
}
