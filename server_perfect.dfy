/** server-perfect.js: the same in-memory menu store without uploads: products
    carry no image, the settings have four fields, and a product is available
    unless the JSON body carries the boolean `false`. */
module PerfectServer {
  import opened Values
  import opened Http
  import opened Arrays
  import opened Catalog
  import Auth
  import FinalServer

  const Token := "simple-admin-token"

  /** `authMiddleware`: the same bearer check as server-final.js, with this
      server's token. */
  predicate AuthMiddleware(header: Option<string>) {
    Auth.BearerAccepts(header, Token)
  }

  lemma AcceptedHeaders(header: string)
    ensures AuthMiddleware(Some(header))
            <==> header == Token
                 || exists k :: 0 <= k <= |Token| && header == Token[..k] + Auth.BearerPrefix + Token[k..]
  {
    Auth.AcceptedHeaders(header, Token);
  }

  lemma TokenAccepted()
    ensures AuthMiddleware(Some(Auth.BearerPrefix + Token))
    ensures AuthMiddleware(Some(Token))
  {
    AcceptedHeaders(Auth.BearerPrefix + Token);
    assert Token[..0] + Auth.BearerPrefix + Token[0..] == Auth.BearerPrefix + Token;
    AcceptedHeaders(Token);
  }

  /** The token server-final.js issues does not open this server. */
  lemma OtherServersTokenRejected()
    ensures !AuthMiddleware(Some(Auth.BearerPrefix + FinalServer.Token))
  {
    var header := Auth.BearerPrefix + FinalServer.Token;
    AcceptedHeaders(header);
    assert header[7] == 'a' && Token[0] == 's';
    assert header != Token;
    forall k | 0 <= k <= |Token|
      ensures header != Token[..k] + Auth.BearerPrefix + Token[k..]
    {
      if k == 0 {
        assert (Token[..k] + Auth.BearerPrefix + Token[k..])[7] == 's';
      } else {
        assert (Token[..k] + Auth.BearerPrefix + Token[k..])[0] == 's';
      }
    }
  }

  lemma LoginTokenAccepted(username: Field, password: Field)
    requires Auth.Login(username, password, Token).Ok?
    ensures AuthMiddleware(Some(Auth.BearerPrefix + Auth.Login(username, password, Token).value.token))
    ensures Auth.Verify(Some(Auth.Login(username, password, Token).value.token), Token).Ok?
  {
    Auth.IssuedTokenAccepted(username, password, Token);
  }

  // ------------------------------------------------------------------ products

  datatype Product = Product(
    id: int,
    name: Field,
    description: Field,
    price: Option<real>,
    categoryId: Option<int>,
    isAvailable: bool,
    createdAt: string)

  function ProductId(p: Product): int {
    p.id
  }

  datatype ProductBody = ProductBody(
    name: Field,
    description: Field,
    price: Option<real>,
    categoryId: Option<int>,
    isAvailable: Value)

  /** `is_available !== false`: everything but the boolean `false`, a missing
      field included, makes a product available. */
  predicate Available(v: Value) {
    v != Bool(false)
  }

  /** Every value server-final.js treats as available is available here too, but
      not the other way round: a missing field or the boolean `true` is available
      here and not there. */
  lemma AvailabilityRulesCompared(v: Value)
    ensures FinalServer.Available(v) ==> Available(v)
    ensures Available(Undefined) && !FinalServer.Available(Undefined)
    ensures Available(Bool(true)) && !FinalServer.Available(Bool(true))
    ensures !Available(Bool(false)) && !FinalServer.Available(Bool(false))
  {
  }

  function SeedProducts(now: string): seq<Product> {
    [ Product(1, Some("سلطة يونانية"), Some("سلطة طازجة مع الخضار والزيتون والجبنة البيضاء"), Some(25.0), Some(1), true, now),
      Product(2, Some("حمص بالطحينة"), Some("حمص طازج مع الطحينة وزيت الزيتون"), Some(18.0), Some(1), true, now),
      Product(3, Some("شاورما لحم"), Some("شاورما لحم مشوية مع الخضار والصلصات"), Some(35.0), Some(2), true, now),
      Product(4, Some("كبة مقلية"), Some("كبة مقلية مقرمشة مع اللحم والتوابل"), Some(28.0), Some(2), true, now),
      Product(5, Some("عصير برتقال"), Some("عصير برتقال طازج طبيعي 100%"), Some(15.0), Some(3), true, now),
      Product(6, Some("قهوة عربية"), Some("قهوة عربية أصيلة مع الهيل"), Some(12.0), Some(3), true, now),
      Product(7, Some("كيك الشوكولاتة"), Some("كيك شوكولاتة غني بالطعم مع طبقة من الكريمة"), Some(20.0), Some(4), true, now),
      Product(8, Some("أم علي"), Some("حلى أم علي التقليدي مع المكسرات والقشطة"), Some(22.0), Some(4), true, now) ]
  }

  lemma SeedProductsNumbered(now: string)
    ensures NumberedFromOne(SeedProducts(now), ProductId)
  {
  }

  function NewProduct(id: int, body: ProductBody, now: string): (p: Product)
    ensures p.id == id && p.createdAt == now
    ensures p.name == body.name && p.description == body.description
    ensures p.price == body.price && p.categoryId == body.categoryId
    ensures p.isAvailable <==> body.isAvailable != Bool(false)
  {
    Product(id, body.name, body.description, body.price, body.categoryId, Available(body.isAvailable), now)
  }

  function ReviseProduct(p: Product, body: ProductBody): (r: Product)
    ensures r.id == p.id && r.createdAt == p.createdAt
    ensures r.name == body.name && r.description == body.description
    ensures r.price == body.price && r.categoryId == body.categoryId
    ensures r.isAvailable <==> body.isAvailable != Bool(false)
  {
    p.(name := body.name, description := body.description, price := body.price,
       categoryId := body.categoryId, isAvailable := Available(body.isAvailable))
  }

  // -------------------------------------------------------------- projections

  datatype MenuSection = MenuSection(category: Category, products: seq<Product>)

  predicate Listed(c: Category, p: Product) {
    p.categoryId == Some(c.id) && p.isAvailable
  }

  function ListedIn(c: Category): Product -> bool {
    p => Listed(c, p)
  }

  /** `GET /api/menu`: every category once, in list order, with exactly its
      available products in list order. */
  function Menu(cs: seq<Category>, ps: seq<Product>): (m: seq<MenuSection>)
    ensures |m| == |cs|
    ensures forall i :: 0 <= i < |cs| ==> m[i].category == cs[i] && m[i].products == Filter(ps, ListedIn(cs[i]))
    ensures forall i, j :: 0 <= i < |m| && 0 <= j < |m[i].products| ==>
              m[i].products[j] in ps && Listed(cs[i], m[i].products[j])
    ensures forall i, k :: 0 <= i < |m| && 0 <= k < |ps| && Listed(cs[i], ps[k]) ==> ps[k] in m[i].products
  {
    var m := seq(|cs|, i requires 0 <= i < |cs| => MenuSection(cs[i], Filter(ps, ListedIn(cs[i]))));
    assert forall i, k :: 0 <= i < |m| && 0 <= k < |ps| && Listed(cs[i], ps[k]) ==> ps[k] in m[i].products by {
      forall i, k | 0 <= i < |m| && 0 <= k < |ps| && Listed(cs[i], ps[k])
        ensures ps[k] in m[i].products
      {
        assert ListedIn(cs[i])(ps[k]);
      }
    }
    m
  }

  datatype AdminProduct = AdminProduct(product: Product, categoryName: string)

  /** `GET /api/admin/products`: one row per product, same order, each with its
      category's name or the fallback. */
  function AdminProducts(cs: seq<Category>, ps: seq<Product>): (r: seq<AdminProduct>)
    ensures |r| == |ps|
    ensures forall i :: 0 <= i < |ps| ==>
              r[i].product == ps[i] && r[i].categoryName == CategoryLabel(cs, ps[i].categoryId)
  {
    seq(|ps|, i requires 0 <= i < |ps| => AdminProduct(ps[i], CategoryLabel(cs, ps[i].categoryId)))
  }

  // ------------------------------------------------------------------ settings

  datatype Settings = Settings(siteName: string, primaryColor: string, secondaryColor: string, backgroundColor: string)

  datatype SettingsBody = SettingsBody(siteName: Field, primaryColor: Field, secondaryColor: Field, backgroundColor: Field)

  const SeedSettings := Settings("مطعمنا الرائع", "#3b82f6", "#1e40af", "#f8fafc")

  predicate Filled(s: Settings) {
    s.siteName != "" && s.primaryColor != "" && s.secondaryColor != "" && s.backgroundColor != ""
  }

  /** `PUT /api/admin/settings`: the object is rebuilt from exactly the four keys;
      a truthy sent value wins, anything else keeps the old value. */
  function MergeSettings(s: Settings, body: SettingsBody): (r: Settings)
    ensures MergedField(body.siteName, s.siteName, r.siteName)
    ensures MergedField(body.primaryColor, s.primaryColor, r.primaryColor)
    ensures MergedField(body.secondaryColor, s.secondaryColor, r.secondaryColor)
    ensures MergedField(body.backgroundColor, s.backgroundColor, r.backgroundColor)
    ensures Filled(s) ==> Filled(r)
  {
    Settings(Prefer(body.siteName, s.siteName), Prefer(body.primaryColor, s.primaryColor),
             Prefer(body.secondaryColor, s.secondaryColor), Prefer(body.backgroundColor, s.backgroundColor))
  }

  lemma MergeIdempotent(s: Settings, body: SettingsBody)
    ensures MergeSettings(MergeSettings(s, body), body) == MergeSettings(s, body)
  {
  }

  lemma MergeNothing(s: Settings)
    ensures MergeSettings(s, SettingsBody(None, None, None, None)) == s
  {
  }

  /** This merge is server-final.js's merge restricted to the four shared fields. */
  lemma MergeAgreesWithFinal(s: FinalServer.Settings, body: FinalServer.SettingsBody, logo: Option<string>)
    ensures var r := FinalServer.MergeSettings(s, body, logo);
            MergeSettings(Settings(s.siteName, s.primaryColor, s.secondaryColor, s.backgroundColor),
                          SettingsBody(body.siteName, body.primaryColor, body.secondaryColor, body.backgroundColor))
            == Settings(r.siteName, r.primaryColor, r.secondaryColor, r.backgroundColor)
  {
  }

  // --------------------------------------------------------------------- store

  class Store {
    var categories: seq<Category>
    var products: seq<Product>
    var settings: Settings

    /** The four settings fields stay non-blank: the merge only ever
        replaces them with truthy values. An invariant kept for its own sake;
        no handler depends on it. */
    ghost predicate Valid()
      reads this
    {
      Filled(settings)
    }

    constructor (now: string)
      ensures Valid()
      ensures categories == SeedCategories(now) && products == SeedProducts(now)
      ensures settings == SeedSettings
    {
      categories := SeedCategories(now);
      products := SeedProducts(now);
      settings := SeedSettings;
    }

    method ListCategories(auth: Option<string>) returns (r: Reply<seq<Category>>)
      ensures r == if AuthMiddleware(auth) then Ok(categories) else Unauthorized
    {
      if !AuthMiddleware(auth) {
        return Unauthorized;
      }
      r := Ok(categories);
    }

    method CreateCategory(auth: Option<string>, body: CategoryBody, now: string) returns (r: Reply<Category>)
      requires Valid()
      modifies this
      ensures Valid() && products == old(products) && settings == old(settings)
      ensures !AuthMiddleware(auth) ==> r == Unauthorized && categories == old(categories)
      ensures AuthMiddleware(auth) ==>
                r == Ok(NewCategory(|old(categories)| + 1, body, now))
                && categories == old(categories) + [r.value]
    {
      if !AuthMiddleware(auth) {
        return Unauthorized;
      }
      var c := NewCategory(|categories| + 1, body, now);
      categories := categories + [c];
      r := Ok(c);
    }

    method UpdateCategory(auth: Option<string>, key: Option<int>, body: CategoryBody) returns (r: Reply<Category>)
      requires Valid()
      modifies this
      ensures Valid() && products == old(products) && settings == old(settings)
      ensures !AuthMiddleware(auth) ==> r == Unauthorized && categories == old(categories)
      ensures AuthMiddleware(auth) ==>
                match IndexOfId(old(categories), CategoryId, key)
                case None => r == NotFound && categories == old(categories)
                case Some(k) =>
                  categories == old(categories)[k := Revise(old(categories)[k], body)]
                  && r == Ok(categories[k])
    {
      if !AuthMiddleware(auth) {
        return Unauthorized;
      }
      match IndexOfId(categories, CategoryId, key)
      case None =>
        r := NotFound;
      case Some(k) =>
        categories := categories[k := Revise(categories[k], body)];
        r := Ok(categories[k]);
    }

    method DeleteCategory(auth: Option<string>, key: Option<int>) returns (r: Reply<()>)
      requires Valid()
      modifies this
      ensures Valid() && products == old(products) && settings == old(settings)
      ensures !AuthMiddleware(auth) ==> r == Unauthorized && categories == old(categories)
      ensures AuthMiddleware(auth) ==> r == Ok(()) && categories == WithoutId(old(categories), CategoryId, key)
    {
      if !AuthMiddleware(auth) {
        return Unauthorized;
      }
      categories := WithoutId(categories, CategoryId, key);
      r := Ok(());
    }

    method ListProducts(auth: Option<string>) returns (r: Reply<seq<AdminProduct>>)
      ensures r == if AuthMiddleware(auth) then Ok(AdminProducts(categories, products)) else Unauthorized
    {
      if !AuthMiddleware(auth) {
        return Unauthorized;
      }
      r := Ok(AdminProducts(categories, products));
    }

    method CreateProduct(auth: Option<string>, body: ProductBody, now: string) returns (r: Reply<Product>)
      requires Valid()
      modifies this
      ensures Valid() && categories == old(categories) && settings == old(settings)
      ensures !AuthMiddleware(auth) ==> r == Unauthorized && products == old(products)
      ensures AuthMiddleware(auth) ==>
                r == Ok(NewProduct(|old(products)| + 1, body, now))
                && products == old(products) + [r.value]
    {
      if !AuthMiddleware(auth) {
        return Unauthorized;
      }
      var p := NewProduct(|products| + 1, body, now);
      products := products + [p];
      r := Ok(p);
    }

    method UpdateProduct(auth: Option<string>, key: Option<int>, body: ProductBody) returns (r: Reply<Product>)
      requires Valid()
      modifies this
      ensures Valid() && categories == old(categories) && settings == old(settings)
      ensures !AuthMiddleware(auth) ==> r == Unauthorized && products == old(products)
      ensures AuthMiddleware(auth) ==>
                match IndexOfId(old(products), ProductId, key)
                case None => r == NotFound && products == old(products)
                case Some(k) =>
                  products == old(products)[k := ReviseProduct(old(products)[k], body)]
                  && r == Ok(products[k])
    {
      if !AuthMiddleware(auth) {
        return Unauthorized;
      }
      match IndexOfId(products, ProductId, key)
      case None =>
        r := NotFound;
      case Some(k) =>
        products := products[k := ReviseProduct(products[k], body)];
        r := Ok(products[k]);
    }

    method DeleteProduct(auth: Option<string>, key: Option<int>) returns (r: Reply<()>)
      requires Valid()
      modifies this
      ensures Valid() && categories == old(categories) && settings == old(settings)
      ensures !AuthMiddleware(auth) ==> r == Unauthorized && products == old(products)
      ensures AuthMiddleware(auth) ==> r == Ok(()) && products == WithoutId(old(products), ProductId, key)
    {
      if !AuthMiddleware(auth) {
        return Unauthorized;
      }
      products := WithoutId(products, ProductId, key);
      r := Ok(());
    }

    /** `GET /api/admin/settings`: served without the guard. */
    method AdminSettings() returns (s: Settings)
      ensures s == settings
    {
      s := settings;
    }

    method UpdateSettings(auth: Option<string>, body: SettingsBody) returns (r: Reply<Settings>)
      requires Valid()
      modifies this
      ensures Valid() && categories == old(categories) && products == old(products)
      ensures !AuthMiddleware(auth) ==> r == Unauthorized && settings == old(settings)
      ensures AuthMiddleware(auth) ==> settings == MergeSettings(old(settings), body) && r == Ok(settings)
    {
      if !AuthMiddleware(auth) {
        return Unauthorized;
      }
      settings := MergeSettings(settings, body);
      r := Ok(settings);
    }

    method GetMenu() returns (m: seq<MenuSection>)
      ensures m == Menu(categories, products)
    {
      m := Menu(categories, products);
    }
  }

  /** On the seed data: deleting product 3 and then creating a product hands out
      id 8 again, so two products carry id 8. */
  method DeleteThenCreateReusesId(now: string) returns (older: Product, newer: Product)
    ensures older.id == 8 && newer.id == 8
    ensures older.name == Some("أم علي") && newer.name == Some("فلافل")
  {
    var store := new Store(now);
    var header := Some(Auth.BearerPrefix + Token);
    TokenAccepted();
    var deleted := store.DeleteProduct(header, Some(3));
    SeedProductsNumbered(now);
    IdReuseAfterDelete(SeedProducts(now), ProductId, 3);
    var body := ProductBody(Some("فلافل"), None, Some(10.0), Some(1), Undefined);
    var created := store.CreateProduct(header, body, now);
    older, newer := store.products[6], created.value;
  }
}
