/** ProductsService and CategoriesService: the catalogue of one store. */
module Catalogue {
  import opened Schema
  import opened Listing
  import opened Money

  datatype NewProduct = NewProduct(
    name: string, description: Option<string>, price: nat, stock: Option<nat>, categoryId: Option<Uuid>)

  // relinks: whether saving the entity follows the assigned category id or the category
  // object loaded before it, which the ORM decides.
  datatype ProductPatch = ProductPatch(
    name: Option<string>, description: Option<string>, price: Option<nat>, stock: Option<nat>,
    categoryId: Option<Uuid>, relinks: bool)

  datatype ProductQuery = ProductQuery(
    search: Option<string -> bool>, category: Option<Uuid>, minPrice: Option<real>, maxPrice: Option<real>,
    page: Option<nat>, limit: Option<nat>)

  datatype Joined = Joined(id: Uuid, product: Product, category: Option<Category>)

  // ----- what the queries see -----

  predicate OwnsCategory(db: Db, storeId: Uuid, id: Uuid) {
    id in db.categories && db.categories[id].storeId == storeId
  }

  /** A category named in a request must exist in the store. */
  predicate CategoryFits(db: Db, storeId: Uuid, categoryId: Option<Uuid>) {
    categoryId.Some? ==> OwnsCategory(db, storeId, categoryId.value)
  }

  /** A product with its category, as the left join on the category id alone finds it. */
  function Join(db: Db, id: Uuid): (row: Joined)
    requires id in db.products
  {
    var product := db.products[id];
    var c := product.categoryId;
    Joined(id, product, if c.Some? && c.value in db.categories then Some(db.categories[c.value]) else None)
  }

  /** The row shows the product with the category it names, if that exists. */
  predicate WithCategory(row: Joined, id: Uuid, product: Product, categories: map<Uuid, Category>) {
    && row.id == id && row.product == product
    && (row.category.Some? <==> product.categoryId.Some? && product.categoryId.value in categories)
    && (row.category.Some? ==> row.category.value == categories[product.categoryId.value])
  }

  predicate InRange(price: nat, stock: int) {
    price < NUMERIC_10_2 && stock <= INT4_MAX
  }

  // ----- the statements on products -----

  function ProductFrom(storeId: Uuid, dto: NewProduct, now: nat): (product: Product) {
    Product(storeId, dto.categoryId, dto.name, dto.description, dto.price, GetOr(dto.stock, 0), None, now)
  }

  function Patched(product: Product, dto: ProductPatch): (r: Product) {
    product.(
      name := GetOr(dto.name, product.name),
      description := if dto.description.Some? then dto.description else product.description,
      price := GetOr(dto.price, product.price),
      stock := if dto.stock.Some? then dto.stock.value else product.stock,
      categoryId := if dto.categoryId.Some? && dto.relinks then dto.categoryId else product.categoryId)
  }

  lemma PatchedKeepsStore(product: Product, patch: ProductPatch)
    ensures Patched(product, patch).storeId == product.storeId
  {
  }

  function Unlinked(item: Item, id: Uuid): (r: Item) {
    if item.productId == Some(id) then item.(productId := None) else item
  }

  function UnlinkedItems(items: seq<Item>, id: Uuid): (r: seq<Item>)
    ensures |r| == |items|
  {
    seq(|items|, i requires 0 <= i < |items| => Unlinked(items[i], id))
  }

  /** ON DELETE SET NULL: the items of a removed product, in whichever order, lose their link. */
  function ProductRemoved(db: Db, id: Uuid): (db': Db) {
    db.(products := db.products - {id},
        orders := map o | o in db.orders :: db.orders[o].(items := UnlinkedItems(db.orders[o].items, id)))
  }

  // ----- the statements on categories -----

  /** ON DELETE SET NULL: the products of a removed category, in whichever store, lose their link. */
  function CategoryRemoved(db: Db, id: Uuid): (db': Db) {
    db.(categories := db.categories - {id},
        products := map p | p in db.products ::
          if db.products[p].categoryId == Some(id) then db.products[p].(categoryId := None) else db.products[p])
  }

  function StoreCategories(categories: map<Uuid, Category>, storeId: Uuid): (r: map<Uuid, Category>) {
    map c | c in categories && categories[c].storeId == storeId :: categories[c]
  }

  // ----- links between rows -----

  /** A product's category exists and belongs to the product's store. */
  predicate ProductsLinked(db: Db) {
    forall p :: p in db.products && db.products[p].categoryId.Some? ==>
      OwnsCategory(db, db.products[p].storeId, db.products[p].categoryId.value)
  }

  predicate ItemLinked(db: Db, storeId: Uuid, item: Item) {
    item.productId.Some? ==> InStore(db.products, storeId, item.productId.value)
  }

  /** An item's product exists and belongs to the store of the item's order. */
  predicate ItemsLinked(db: Db) {
    forall o, i :: o in db.orders && 0 <= i < |db.orders[o].items| ==>
      ItemLinked(db, db.orders[o].storeId, db.orders[o].items[i])
  }

  // ----- lists -----

  predicate Wanted(product: Product, query: ProductQuery) {
    && (query.search.Some? ==> query.search.value(product.name))
    && (query.category.Some? ==> product.categoryId == query.category)
    && (query.minPrice.Some? ==> Dollars(product.price) >= query.minPrice.value)
    && (query.maxPrice.Some? ==> Dollars(product.price) <= query.maxPrice.value)
  }

  function Matching(db: Db, storeId: Uuid, query: ProductQuery): (r: map<Uuid, Product>) {
    map p | p in db.products && db.products[p].storeId == storeId && Wanted(db.products[p], query) :: db.products[p]
  }

  function CreationTimes(rows: map<Uuid, Product>): (at: map<Uuid, nat>)
    ensures at.Keys == rows.Keys
  {
    map p | p in rows :: rows[p].createdAt
  }

  function JoinAll(db: Db, ids: seq<Uuid>): (rows: seq<Joined>)
    requires forall id :: id in ids ==> id in db.products
    ensures |rows| == |ids|
  {
    seq(|ids|, i requires 0 <= i < |ids| => Join(db, ids[i]))
  }

  /** The reply of findAll: the page of the matching rows of the store, newest first. */
  function ProductList(db: Db, storeId: Uuid, query: ProductQuery): (r: Listed<Joined>)
    requires GetOr(query.page, 1) >= 1 && GetOr(query.limit, 20) >= 1
  {
    Paged(db, Matching(db, storeId, query), GetOr(query.page, 1), GetOr(query.limit, 20))
  }

  /** orderBy, skip and take on the selected rows, with the count of all of them. */
  function Paged(db: Db, rows: map<Uuid, Product>, page: nat, limit: nat): (r: Listed<Joined>)
    requires rows.Keys <= db.products.Keys && page >= 1 && limit >= 1
  {
    var ids := NewestFirst(CreationTimes(rows));
    PageOfMembers(CreationTimes(rows), page, limit);
    Listed(JoinAll(db, Page(ids, page, limit)), |rows|, page, limit, TotalPages(|rows|, limit))
  }

  function ShowsProduct(db: Db): (shows: (Joined, Uuid) -> bool) {
    (row, id) => id in db.products && WithCategory(row, id, db.products[id], db.categories)
  }

  lemma PagedShows(db: Db, rows: map<Uuid, Product>, page: nat, limit: nat)
    requires rows.Keys <= db.products.Keys && page >= 1 && limit >= 1
    ensures ShowsPage(Paged(db, rows, page, limit), CreationTimes(rows), page, limit,
                      ShowsProduct(db))
  {
    hide NewestFirst, TotalPages, Page;
    PageOfMembers(CreationTimes(rows), page, limit);
    PageEntries(NewestFirst(CreationTimes(rows)), page, limit);
  }

  /** The list in terms of the columns: which products pass each filter, and which of them the page shows. */
  lemma ProductListShows(db: Db, storeId: Uuid, query: ProductQuery)
    requires GetOr(query.page, 1) >= 1 && GetOr(query.limit, 20) >= 1
    ensures var rows := map p | p in db.products && db.products[p].storeId == storeId
                          && (query.search.Some? ==> query.search.value(db.products[p].name))
                          && (query.category.Some? ==> db.products[p].categoryId == Some(query.category.value))
                          && (query.minPrice.Some? ==> query.minPrice.value <= Dollars(db.products[p].price))
                          && (query.maxPrice.Some? ==> Dollars(db.products[p].price) <= query.maxPrice.value) :: db.products[p];
            ShowsPage(ProductList(db, storeId, query), map p | p in rows :: rows[p].createdAt,
                      GetOr(query.page, 1), GetOr(query.limit, 20), ShowsProduct(db))
  {
    hide ShowsPage, Paged, ShowsProduct;
    var rows := map p | p in db.products && db.products[p].storeId == storeId
                  && (query.search.Some? ==> query.search.value(db.products[p].name))
                  && (query.category.Some? ==> db.products[p].categoryId == Some(query.category.value))
                  && (query.minPrice.Some? ==> query.minPrice.value <= Dollars(db.products[p].price))
                  && (query.maxPrice.Some? ==> Dollars(db.products[p].price) <= query.maxPrice.value) :: db.products[p];
    assert Matching(db, storeId, query) == rows;
    assert CreationTimes(rows) == map p | p in rows :: rows[p].createdAt;
    PagedShows(db, rows, GetOr(query.page, 1), GetOr(query.limit, 20));
  }

  lemma Selects(db: Db, storeId: Uuid, query: ProductQuery, where: Product -> bool)
    requires forall p: Product :: where(p) <==> p.storeId == storeId && Wanted(p, query)
    ensures (map p | p in db.products && where(db.products[p]) :: db.products[p]) == Matching(db, storeId, query)
  {
    hide Wanted;
  }

  function AndWhere(where: Product -> bool, more: Product -> bool): (both: Product -> bool)
    ensures forall p :: both(p) <==> where(p) && more(p)
  {
    p => where(p) && more(p)
  }

  class ProductsService {
    const tx: Database

    constructor (tx: Database)
      ensures this.tx == tx
    {
      this.tx := tx;
    }

    method Create(storeId: Uuid, dto: NewProduct, id: Uuid, now: nat) returns (r: Result<Product, Error>)
      requires id !in tx.products
      modifies tx
      ensures r.Ok? <==>
        CategoryFits(old(tx.State()), storeId, dto.categoryId) && InRange(dto.price, GetOr(dto.stock, 0))
      ensures r.Ok? ==> r.value == ProductFrom(storeId, dto, now)
      ensures r.Ok? ==>
        && r.value.storeId == storeId && r.value.name == dto.name && r.value.description == dto.description
        && r.value.price == dto.price && r.value.stock == (if dto.stock.Some? then dto.stock.value else 0)
        && r.value.categoryId == dto.categoryId && r.value.imageUrl == None && r.value.createdAt == now
        && r.value.price < 10_000_000_000 && r.value.stock <= 2_147_483_647
      ensures r == Err(OutOfRange) ==>
        dto.price >= 10_000_000_000 || (dto.stock.Some? && dto.stock.value > 2_147_483_647)
      ensures tx.State() == if r.Ok? then old(tx.State()).(products := old(tx.products)[id := r.value]) else old(tx.State())
      ensures r.Err? ==>
        r.error == if CategoryFits(old(tx.State()), storeId, dto.categoryId) then OutOfRange else CategoryNotFound
    {
      if dto.categoryId.Some? {
        var c := dto.categoryId.value;
        if c !in tx.categories || tx.categories[c].storeId != storeId {
          return Err(CategoryNotFound);
        }
      }
      var product := Product(storeId, dto.categoryId, dto.name, dto.description, dto.price, GetOr(dto.stock, 0), None, now);
      if product.price >= NUMERIC_10_2 || product.stock > INT4_MAX {
        return Err(OutOfRange);
      }
      tx.products := tx.products[id := product];
      return Ok(product);
    }

    method FindOne(storeId: Uuid, id: Uuid) returns (r: Result<Joined, Error>)
      ensures r == if InStore(tx.products, storeId, id) then Ok(Join(tx.State(), id)) else Err(ProductNotFound(id))
      ensures r.Ok? ==> WithCategory(r.value, id, tx.products[id], tx.categories)
    {
      if id !in tx.products || tx.products[id].storeId != storeId {
        return Err(ProductNotFound(id));
      }
      var product := tx.products[id];
      var category := None;
      if product.categoryId.Some? && product.categoryId.value in tx.categories {
        category := Some(tx.categories[product.categoryId.value]);
      }
      return Ok(Joined(id, product, category));
    }

    method Update(storeId: Uuid, id: Uuid, dto: ProductPatch) returns (r: Result<Product, Error>)
      modifies tx
      ensures r.Ok? <==>
        && InStore(old(tx.products), storeId, id)
        && CategoryFits(old(tx.State()), storeId, dto.categoryId)
        && InRange(Patched(old(tx.products)[id], dto).price, Patched(old(tx.products)[id], dto).stock)
      ensures r.Ok? ==> r.value == Patched(old(tx.products)[id], dto)
      ensures r.Ok? ==> var was := old(tx.products)[id];
        && r.value.name == (if dto.name.Some? then dto.name.value else was.name)
        && r.value.description == (if dto.description.Some? then dto.description else was.description)
        && r.value.price == (if dto.price.Some? then dto.price.value else was.price)
        && r.value.stock == (if dto.stock.Some? then dto.stock.value else was.stock)
        && (r.value.categoryId == dto.categoryId || r.value.categoryId == was.categoryId)
        && (dto.categoryId.Some? && dto.relinks ==> r.value.categoryId == dto.categoryId)
        && r.value.storeId == storeId && r.value.imageUrl == was.imageUrl && r.value.createdAt == was.createdAt
        && r.value.price < 10_000_000_000 && r.value.stock <= 2_147_483_647
      ensures tx.State() == if r.Ok? then old(tx.State()).(products := old(tx.products)[id := r.value]) else old(tx.State())
      ensures r.Err? ==>
        r.error == if !InStore(old(tx.products), storeId, id) then ProductNotFound(id)
                   else if !CategoryFits(old(tx.State()), storeId, dto.categoryId) then CategoryNotFound
                   else OutOfRange
    {
      var found := FindOne(storeId, id);
      if found.Err? {
        return Err(found.error);
      }
      var product := found.value.product;
      if dto.categoryId.Some? {
        var c := dto.categoryId.value;
        if c !in tx.categories || tx.categories[c].storeId != storeId {
          return Err(CategoryNotFound);
        }
        if dto.relinks {
          product := product.(categoryId := Some(c));
        }
      }
      if dto.name.Some? {
        product := product.(name := dto.name.value);
      }
      if dto.description.Some? {
        product := product.(description := dto.description);
      }
      if dto.price.Some? {
        product := product.(price := dto.price.value);
      }
      if dto.stock.Some? {
        product := product.(stock := dto.stock.value);
      }
      if product.price >= NUMERIC_10_2 || product.stock > INT4_MAX {
        return Err(OutOfRange);
      }
      tx.products := tx.products[id := product];
      return Ok(product);
    }

    method Remove(storeId: Uuid, id: Uuid) returns (r: Result<(), Error>)
      modifies tx
      ensures r == if InStore(old(tx.products), storeId, id) then Ok(()) else Err(ProductNotFound(id))
      ensures tx.State() == if r.Ok? then ProductRemoved(old(tx.State()), id) else old(tx.State())
      ensures r.Ok? ==> tx.products == old(tx.products) - {id} && tx.orders.Keys == old(tx.orders).Keys
      ensures r.Ok? ==> forall o :: o in tx.orders ==>
        && tx.orders[o] == old(tx.orders)[o].(items := tx.orders[o].items)
        && |tx.orders[o].items| == |old(tx.orders)[o].items|
        && forall i :: 0 <= i < |tx.orders[o].items| ==>
             var was := old(tx.orders)[o].items[i];
             tx.orders[o].items[i] == if was.productId == Some(id) then was.(productId := None) else was
    {
      var found := FindOne(storeId, id);
      if found.Err? {
        return Err(found.error);
      }
      tx.products := tx.products - {id};
      tx.orders := map o | o in tx.orders :: tx.orders[o].(items := UnlinkedItems(tx.orders[o].items, id));
      return Ok(());
    }

    method SetImage(storeId: Uuid, id: Uuid, imageUrl: string) returns (r: Result<Product, Error>)
      modifies tx
      ensures r == if InStore(old(tx.products), storeId, id)
                   then Ok(old(tx.products)[id].(imageUrl := Some(imageUrl))) else Err(ProductNotFound(id))
      ensures tx.State() == if r.Ok? then old(tx.State()).(products := old(tx.products)[id := r.value]) else old(tx.State())
    {
      var found := FindOne(storeId, id);
      if found.Err? {
        return Err(found.error);
      }
      var product := found.value.product.(imageUrl := Some(imageUrl));
      tx.products := tx.products[id := product];
      return Ok(product);
    }

    method FindAll(storeId: Uuid, query: ProductQuery) returns (r: Listed<Joined>)
      requires GetOr(query.page, 1) >= 1 && GetOr(query.limit, 20) >= 1
      ensures r == ProductList(tx.State(), storeId, query)
    {
      hide Paged, Dollars, Matching;
      var page, limit := GetOr(query.page, 1), GetOr(query.limit, 20);
      var where := (p: Product) => p.storeId == storeId;
      if query.search.Some? {
        where := AndWhere(where, (p: Product) => query.search.value(p.name));
      }
      if query.category.Some? {
        where := AndWhere(where, (p: Product) => p.categoryId == query.category);
      }
      if query.minPrice.Some? {
        where := AndWhere(where, (p: Product) => Dollars(p.price) >= query.minPrice.value);
      }
      if query.maxPrice.Some? {
        where := AndWhere(where, (p: Product) => Dollars(p.price) <= query.maxPrice.value);
      }
      assert forall p: Product :: where(p) <==> p.storeId == storeId && Wanted(p, query);
      var rows := map p | p in tx.products && where(tx.products[p]) :: tx.products[p];
      Selects(tx.State(), storeId, query, where);
      assert rows == Matching(tx.State(), storeId, query);
      r := Paged(tx.State(), rows, page, limit);
    }
  }

  class CategoriesService {
    const tx: Database

    constructor (tx: Database)
      ensures this.tx == tx
    {
      this.tx := tx;
    }

    method Create(storeId: Uuid, name: string, id: Uuid) returns (r: Category)
      requires id !in tx.categories
      modifies tx
      ensures r == Category(storeId, name)
      ensures tx.State() == old(tx.State()).(categories := old(tx.categories)[id := r])
    {
      r := Category(storeId, name);
      tx.categories := tx.categories[id := r];
    }

    method FindAll(storeId: Uuid) returns (r: map<Uuid, Category>)
      ensures r == StoreCategories(tx.categories, storeId)
      ensures forall c :: c in r <==> OwnsCategory(tx.State(), storeId, c)
      ensures forall c :: c in r ==> r[c] == tx.categories[c]
    {
      r := map c | c in tx.categories && tx.categories[c].storeId == storeId :: tx.categories[c];
    }

    method FindOne(storeId: Uuid, id: Uuid) returns (r: Result<Category, Error>)
      ensures r == if OwnsCategory(tx.State(), storeId, id) then Ok(tx.categories[id]) else Err(CategoryNotFound)
    {
      if id !in tx.categories || tx.categories[id].storeId != storeId {
        return Err(CategoryNotFound);
      }
      return Ok(tx.categories[id]);
    }

    method Update(storeId: Uuid, id: Uuid, name: Option<string>) returns (r: Result<Category, Error>)
      modifies tx
      ensures r == if OwnsCategory(old(tx.State()), storeId, id)
                   then Ok(Category(storeId, GetOr(name, old(tx.categories)[id].name))) else Err(CategoryNotFound)
      ensures tx.State() == if r.Ok? then old(tx.State()).(categories := old(tx.categories)[id := r.value]) else old(tx.State())
    {
      var found := FindOne(storeId, id);
      if found.Err? {
        return found;
      }
      var category := found.value;
      if name.Some? {
        category := category.(name := name.value);
      }
      tx.categories := tx.categories[id := category];
      return Ok(category);
    }

    method Remove(storeId: Uuid, id: Uuid) returns (r: Result<(), Error>)
      modifies tx
      ensures r == if OwnsCategory(old(tx.State()), storeId, id) then Ok(()) else Err(CategoryNotFound)
      ensures tx.State() == if r.Ok? then CategoryRemoved(old(tx.State()), id) else old(tx.State())
      ensures r.Ok? ==> tx.categories == old(tx.categories) - {id} && tx.products.Keys == old(tx.products).Keys
      ensures r.Ok? ==> forall p :: p in tx.products ==>
        var was := old(tx.products)[p];
        tx.products[p] == if was.categoryId == Some(id) then was.(categoryId := None) else was
    {
      var found := FindOne(storeId, id);
      if found.Err? {
        return Err(found.error);
      }
      tx.categories := tx.categories - {id};
      tx.products := map p | p in tx.products ::
        if tx.products[p].categoryId == Some(id) then tx.products[p].(categoryId := None) else tx.products[p];
      return Ok(());
    }
  }
}
