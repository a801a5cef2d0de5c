/** server-final.js: the in-memory menu store with image uploads. Three
    module-level variables (`categories`, `products`, `settings`) are changed in
    place by the admin handlers; the public menu, the admin product list and the
    public settings are projections of them. */
module FinalServer {
  import opened Values
  import opened Http
  import opened Arrays
  import opened Catalog
  import opened Uploads
  import Auth

  const Token := "admin-token-123"

  /** `authMiddleware`: every admin route except reading the settings runs it
      first; a refused request gets 401 and reaches no handler. */
  predicate AuthMiddleware(header: Option<string>) {
    Auth.BearerAccepts(header, Token)
  }

  /** The guard accepts exactly the bare token and the token with `"Bearer "`
      inserted at one position; `"Bearer admin-token-123"` is one of them. */
  lemma AcceptedHeaders(header: string)
    ensures AuthMiddleware(Some(header))
            <==> header == Token
                 || exists k :: 0 <= k <= |Token| && header == Token[..k] + Auth.BearerPrefix + Token[k..]
  {
    Auth.AcceptedHeaders(header, Token);
  }

  /** Both the intended header and the bare token pass. */
  lemma TokenAccepted()
    ensures AuthMiddleware(Some(Auth.BearerPrefix + Token))
    ensures AuthMiddleware(Some(Token))
  {
    AcceptedHeaders(Auth.BearerPrefix + Token);
    assert Token[..0] + Auth.BearerPrefix + Token[0..] == Auth.BearerPrefix + Token;
    AcceptedHeaders(Token);
  }

  /** The scheme is matched case-sensitively: `"bearer "` in lower case fails. */
  lemma LowerCaseSchemeRejected()
    ensures !AuthMiddleware(Some("bearer " + Token))
  {
    var header := "bearer " + Token;
    assert 'B' !in "bearer " && 'B' !in Token;
    assert 'B' !in header;
    Auth.NoSchemeNoStripping(header, Token);
    assert |header| != |Token|;
  }

  /** Login (`/api/auth/login`) hands out a token the guard and `/api/auth/verify` accept. */
  lemma LoginTokenAccepted(username: Field, password: Field)
    requires Auth.Login(username, password, Token).Ok?
    ensures AuthMiddleware(Some(Auth.BearerPrefix + Auth.Login(username, password, Token).value.token))
    ensures Auth.Verify(Some(Auth.Login(username, password, Token).value.token), Token).Ok?
  {
    Auth.IssuedTokenAccepted(username, password, Token);
  }

  // ------------------------------------------------------------------ products

  datatype Product = Product(
    id: int,
    name: Field,
    description: Field,
    price: Option<real>,       // `parseFloat(price)`; `None` is NaN
    categoryId: Option<int>,   // `parseInt(category_id)`; `None` is NaN
    isAvailable: bool,
    image: Option<string>,     // the stored upload name, or `null`
    createdAt: string)

  function ProductId(p: Product): int {
    p.id
  }

  /** The fields of a product create or update form, with price and category id
      already parsed. */
  datatype ProductBody = ProductBody(
    name: Field,
    description: Field,
    price: Option<real>,
    categoryId: Option<int>,
    isAvailable: Value)

  /** `is_available === "true"`: only the string `"true"` makes a product available. */
  predicate Available(v: Value) {
    v == Str("true")
  }

  function SeedProducts(now: string): seq<Product> {
    [ Product(1, Some("سلطة يونانية"), Some("سلطة طازجة مع الخضار والزيتون والجبنة البيضاء"),
              Some(25.0), Some(1), true, None, now),
      Product(2, Some("شاورما لحم"), Some("شاورما لحم مشوية مع الخضار والصلصات"),
              Some(35.0), Some(2), true, None, now) ]
  }

  lemma SeedProductsNumbered(now: string)
    ensures NumberedFromOne(SeedProducts(now), ProductId)
  {
  }

  /** The product a create request adds: the uploaded file's stored name or `null`
      as image, available only for the string `"true"`. */
  function NewProduct(id: int, body: ProductBody, upload: Option<string>, now: string): (p: Product)
    ensures p.id == id && p.createdAt == now && p.image == upload
    ensures p.name == body.name && p.description == body.description
    ensures p.price == body.price && p.categoryId == body.categoryId
    ensures p.isAvailable <==> body.isAvailable == Str("true")
  {
    Product(id, body.name, body.description, body.price, body.categoryId,
            Available(body.isAvailable), upload, now)
  }

  /** `{...p, name, description, price, category_id, is_available, image}`: id and
      creation time survive, and so does the image unless a new file was uploaded. */
  function ReviseProduct(p: Product, body: ProductBody, upload: Option<string>): (r: Product)
    ensures r.id == p.id && r.createdAt == p.createdAt
    ensures r.image == (if upload.Some? then upload else p.image)
    ensures r.name == body.name && r.description == body.description
    ensures r.price == body.price && r.categoryId == body.categoryId
    ensures r.isAvailable <==> body.isAvailable == Str("true")
  {
    p.(name := body.name, description := body.description, price := body.price,
       categoryId := body.categoryId, isAvailable := Available(body.isAvailable),
       image := if upload.Some? then upload else p.image)
  }

  // -------------------------------------------------------------- projections

  /** A product as the menu and the admin list show it, with its image URL. */
  datatype MenuProduct = MenuProduct(product: Product, imageUrl: Option<string>)

  datatype MenuSection = MenuSection(category: Category, products: seq<MenuProduct>)

  /** `prod.category_id === category.id && prod.is_available`. */
  predicate Listed(c: Category, p: Product) {
    p.categoryId == Some(c.id) && p.isAvailable
  }

  function ListedIn(c: Category): Product -> bool {
    p => Listed(c, p)
  }

  function WithImageUrl(p: Product): MenuProduct {
    MenuProduct(p, UploadUrl(p.image))
  }

  /** The products the menu lists under `c`: the available products of that
      category, in list order, each with its `/uploads/` URL or `null`. */
  function Section(c: Category, ps: seq<Product>): (r: seq<MenuProduct>)
    ensures |r| == |Filter(ps, ListedIn(c))|
    ensures forall j :: 0 <= j < |r| ==> r[j] == WithImageUrl(Filter(ps, ListedIn(c))[j])
    ensures forall j :: 0 <= j < |r| ==> Listed(c, r[j].product) && r[j].product in ps
    ensures forall j :: 0 <= j < |r| ==> r[j].imageUrl == UploadUrl(r[j].product.image)
    ensures forall i :: 0 <= i < |ps| && Listed(c, ps[i]) ==> WithImageUrl(ps[i]) in r
  {
    var listed := Filter(ps, ListedIn(c));
    var r := seq(|listed|, j requires 0 <= j < |listed| => WithImageUrl(listed[j]));
    assert forall i :: 0 <= i < |ps| && Listed(c, ps[i]) ==> WithImageUrl(ps[i]) in r by {
      forall i | 0 <= i < |ps| && Listed(c, ps[i])
        ensures WithImageUrl(ps[i]) in r
      {
        assert ListedIn(c)(ps[i]);
        var j :| 0 <= j < |listed| && listed[j] == ps[i];
        assert r[j] == WithImageUrl(ps[i]);
      }
    }
    r
  }

  /** The menu keeps the products' list order: a section of a concatenation is
      the concatenation of the sections. */
  lemma SectionConcat(c: Category, a: seq<Product>, b: seq<Product>)
    ensures Section(c, a + b) == Section(c, a) + Section(c, b)
  {
    FilterConcat(a, b, ListedIn(c));
  }

  /** `GET /api/menu`: every category once, in list order, each with its section;
      no unavailable product appears anywhere. */
  function Menu(cs: seq<Category>, ps: seq<Product>): (m: seq<MenuSection>)
    ensures |m| == |cs|
    ensures forall i :: 0 <= i < |cs| ==> m[i].category == cs[i] && m[i].products == Section(cs[i], ps)
    ensures forall i, j :: 0 <= i < |m| && 0 <= j < |m[i].products| ==>
              m[i].products[j].product.isAvailable && m[i].products[j].product.categoryId == Some(cs[i].id)
  {
    seq(|cs|, i requires 0 <= i < |cs| => MenuSection(cs[i], Section(cs[i], ps)))
  }

  /** A row of `GET /api/admin/products`. */
  datatype AdminProduct = AdminProduct(product: Product, categoryName: string, imageUrl: Option<string>)

  /** `GET /api/admin/products`: one row per product, same order, each with the
      name of the first category carrying its category id (or the fallback) and
      its image URL. */
  function AdminProducts(cs: seq<Category>, ps: seq<Product>): (r: seq<AdminProduct>)
    ensures |r| == |ps|
    ensures forall i :: 0 <= i < |ps| ==>
              r[i].product == ps[i]
              && r[i].categoryName == CategoryLabel(cs, ps[i].categoryId)
              && r[i].imageUrl == UploadUrl(ps[i].image)
  {
    seq(|ps|, i requires 0 <= i < |ps| =>
          AdminProduct(ps[i], CategoryLabel(cs, ps[i].categoryId), UploadUrl(ps[i].image)))
  }

  // ------------------------------------------------------------------ settings

  datatype Settings = Settings(
    siteName: string,
    primaryColor: string,
    secondaryColor: string,
    backgroundColor: string,
    logo: Option<string>,
    description: string,
    phone: string,
    address: string,
    workingHours: string,
    facebook: string,
    instagram: string,
    twitter: string)

  /** The text fields of a settings update form. */
  datatype SettingsBody = SettingsBody(
    siteName: Field,
    primaryColor: Field,
    secondaryColor: Field,
    backgroundColor: Field,
    description: Field,
    phone: Field,
    address: Field,
    workingHours: Field,
    facebook: Field,
    instagram: Field,
    twitter: Field)

  const NoChanges := SettingsBody(None, None, None, None, None, None, None, None, None, None, None)

  const SeedSettings := Settings(
    "مطعمنا الرائع", "#3b82f6", "#1e40af", "#f8fafc", None,
    "أفضل المأكولات والمشروبات في المدينة", "+966 123 456 789", "الرياض، السعودية",
    "٨ ص - ١٢ م", "", "", "")

  /** The fields the seed fills in; no update can blank them. */
  predicate Filled(s: Settings) {
    s.siteName != "" && s.primaryColor != "" && s.secondaryColor != "" && s.backgroundColor != ""
    && s.description != "" && s.phone != "" && s.address != "" && s.workingHours != ""
  }

  /** `PUT /api/admin/settings`: each text field takes the sent value when it is
      truthy and keeps the old one otherwise; the logo becomes the uploaded file's
      stored name when a file came, and stays otherwise. */
  function MergeSettings(s: Settings, body: SettingsBody, logo: Option<string>): (r: Settings)
    ensures MergedField(body.siteName, s.siteName, r.siteName)
    ensures MergedField(body.primaryColor, s.primaryColor, r.primaryColor)
    ensures MergedField(body.secondaryColor, s.secondaryColor, r.secondaryColor)
    ensures MergedField(body.backgroundColor, s.backgroundColor, r.backgroundColor)
    ensures MergedField(body.description, s.description, r.description)
    ensures MergedField(body.phone, s.phone, r.phone)
    ensures MergedField(body.address, s.address, r.address)
    ensures MergedField(body.workingHours, s.workingHours, r.workingHours)
    ensures MergedField(body.facebook, s.facebook, r.facebook)
    ensures MergedField(body.instagram, s.instagram, r.instagram)
    ensures MergedField(body.twitter, s.twitter, r.twitter)
    ensures r.logo == (if logo.Some? then logo else s.logo)
    ensures Filled(s) ==> Filled(r)
  {
    Settings(
      Prefer(body.siteName, s.siteName),
      Prefer(body.primaryColor, s.primaryColor),
      Prefer(body.secondaryColor, s.secondaryColor),
      Prefer(body.backgroundColor, s.backgroundColor),
      if logo.Some? then logo else s.logo,
      Prefer(body.description, s.description),
      Prefer(body.phone, s.phone),
      Prefer(body.address, s.address),
      Prefer(body.workingHours, s.workingHours),
      Prefer(body.facebook, s.facebook),
      Prefer(body.instagram, s.instagram),
      Prefer(body.twitter, s.twitter))
  }

  /** Sending the same update twice leaves the settings as sending it once. */
  lemma MergeIdempotent(s: Settings, body: SettingsBody, logo: Option<string>)
    ensures MergeSettings(MergeSettings(s, body, logo), body, logo) == MergeSettings(s, body, logo)
  {
  }

  /** An update with no text fields and no file changes nothing. */
  lemma MergeNothing(s: Settings)
    ensures MergeSettings(s, NoChanges, None) == s
  {
  }

  /** An update carrying only `siteName` changes at most the site name. */
  lemma MergeSiteNameOnly(s: Settings, siteName: Field)
    ensures MergeSettings(s, NoChanges.(siteName := siteName), None)
            == s.(siteName := Prefer(siteName, s.siteName))
  {
  }

  /** The field-wise overlay of two updates: the later one's truthy fields win. */
  function Overlay(first: SettingsBody, second: SettingsBody): SettingsBody {
    SettingsBody(
      if Truthy(second.siteName) then second.siteName else first.siteName,
      if Truthy(second.primaryColor) then second.primaryColor else first.primaryColor,
      if Truthy(second.secondaryColor) then second.secondaryColor else first.secondaryColor,
      if Truthy(second.backgroundColor) then second.backgroundColor else first.backgroundColor,
      if Truthy(second.description) then second.description else first.description,
      if Truthy(second.phone) then second.phone else first.phone,
      if Truthy(second.address) then second.address else first.address,
      if Truthy(second.workingHours) then second.workingHours else first.workingHours,
      if Truthy(second.facebook) then second.facebook else first.facebook,
      if Truthy(second.instagram) then second.instagram else first.instagram,
      if Truthy(second.twitter) then second.twitter else first.twitter)
  }

  /** Two updates in a row equal one update with their overlay. */
  lemma MergeSequential(s: Settings, first: SettingsBody, logo1: Option<string>,
                        second: SettingsBody, logo2: Option<string>)
    ensures MergeSettings(MergeSettings(s, first, logo1), second, logo2)
            == MergeSettings(s, Overlay(first, second), if logo2.Some? then logo2 else logo1)
  {
  }

  /** `GET /api/settings`: the settings plus the logo's public URL. */
  datatype PublicSettings = PublicSettings(settings: Settings, logoUrl: Option<string>)

  function Public(s: Settings): (r: PublicSettings)
    ensures r.settings == s
    ensures r.logoUrl.Some? <==> Truthy(s.logo)
    ensures UploadedName(r.logoUrl) == (if Truthy(s.logo) then s.logo else None)
  {
    UploadUrlRoundTrip(s.logo);
    PublicSettings(s, UploadUrl(s.logo))
  }

  // --------------------------------------------------------------------- store

  /** The process-wide state and the handlers that read and change it. */
  class Store {
    var categories: seq<Category>
    var products: seq<Product>
    var settings: Settings

    /** The settings fields the seed fills in stay non-blank: the merge only
        ever replaces them with truthy values. An invariant kept for its own
        sake; no handler depends on it. */
    ghost predicate Valid()
      reads this
    {
      Filled(settings)
    }

    constructor (now: string)
      ensures Valid()
      ensures categories == SeedCategories(now) && products == SeedProducts(now)
      ensures settings == SeedSettings
    {
      categories := SeedCategories(now);
      products := SeedProducts(now);
      settings := SeedSettings;
    }

    /** `GET /api/admin/categories`. */
    method ListCategories(auth: Option<string>) returns (r: Reply<seq<Category>>)
      ensures r == if AuthMiddleware(auth) then Ok(categories) else Unauthorized
    {
      if !AuthMiddleware(auth) {
        return Unauthorized;
      }
      r := Ok(categories);
    }

    /** `POST /api/admin/categories`: appends one category whose id is the old
        length plus one. */
    method CreateCategory(auth: Option<string>, body: CategoryBody, now: string) returns (r: Reply<Category>)
      requires Valid()
      modifies this
      ensures Valid() && products == old(products) && settings == old(settings)
      ensures !AuthMiddleware(auth) ==> r == Unauthorized && categories == old(categories)
      ensures AuthMiddleware(auth) ==>
                r == Ok(NewCategory(|old(categories)| + 1, body, now))
                && categories == old(categories) + [r.value]
    {
      if !AuthMiddleware(auth) {
        return Unauthorized;
      }
      var c := NewCategory(|categories| + 1, body, now);
      categories := categories + [c];
      r := Ok(c);
    }

    /** `PUT /api/admin/categories/:id`: 404 when no category carries the id;
        otherwise only the first one carrying it is revised. */
    method UpdateCategory(auth: Option<string>, key: Option<int>, body: CategoryBody) returns (r: Reply<Category>)
      requires Valid()
      modifies this
      ensures Valid() && products == old(products) && settings == old(settings)
      ensures !AuthMiddleware(auth) ==> r == Unauthorized && categories == old(categories)
      ensures AuthMiddleware(auth) ==>
                match IndexOfId(old(categories), CategoryId, key)
                case None => r == NotFound && categories == old(categories)
                case Some(k) =>
                  categories == old(categories)[k := Revise(old(categories)[k], body)]
                  && r == Ok(categories[k])
    {
      if !AuthMiddleware(auth) {
        return Unauthorized;
      }
      match IndexOfId(categories, CategoryId, key)
      case None =>
        r := NotFound;
      case Some(k) =>
        categories := categories[k := Revise(categories[k], body)];
        r := Ok(categories[k]);
    }

    /** `DELETE /api/admin/categories/:id`: drops every category carrying the id;
        products are not touched, so their references may dangle. */
    method DeleteCategory(auth: Option<string>, key: Option<int>) returns (r: Reply<()>)
      requires Valid()
      modifies this
      ensures Valid() && products == old(products) && settings == old(settings)
      ensures !AuthMiddleware(auth) ==> r == Unauthorized && categories == old(categories)
      ensures AuthMiddleware(auth) ==> r == Ok(()) && categories == WithoutId(old(categories), CategoryId, key)
    {
      if !AuthMiddleware(auth) {
        return Unauthorized;
      }
      categories := WithoutId(categories, CategoryId, key);
      r := Ok(());
    }

    /** `GET /api/admin/products`. */
    method ListProducts(auth: Option<string>) returns (r: Reply<seq<AdminProduct>>)
      ensures r == if AuthMiddleware(auth) then Ok(AdminProducts(categories, products)) else Unauthorized
    {
      if !AuthMiddleware(auth) {
        return Unauthorized;
      }
      r := Ok(AdminProducts(categories, products));
    }

    /** `POST /api/admin/products`: the guard, then the upload, then one product
        appended with id old length plus one. */
    method CreateProduct(auth: Option<string>, file: Option<UploadedFile>, body: ProductBody, now: string)
      returns (r: Reply<Product>)
      requires Valid()
      modifies this
      ensures Valid() && categories == old(categories) && settings == old(settings)
      ensures !AuthMiddleware(auth) ==> r == Unauthorized && products == old(products)
      ensures AuthMiddleware(auth) && !Receive(file).Ok? ==>
                !r.Ok? && r.Status() == Receive(file).Status() && products == old(products)
      ensures AuthMiddleware(auth) && Receive(file).Ok? ==>
                r == Ok(NewProduct(|old(products)| + 1, body, Receive(file).value, now))
                && products == old(products) + [r.value]
    {
      if !AuthMiddleware(auth) {
        return Unauthorized;
      }
      var upload := Receive(file);
      if !upload.Ok? {
        return upload.PropagateFailure();
      }
      var p := NewProduct(|products| + 1, body, upload.value, now);
      products := products + [p];
      r := Ok(p);
    }

    /** `PUT /api/admin/products/:id`: the guard, then the upload, then 404 or a
        revision of the first product carrying the id. */
    method UpdateProduct(auth: Option<string>, key: Option<int>, file: Option<UploadedFile>, body: ProductBody)
      returns (r: Reply<Product>)
      requires Valid()
      modifies this
      ensures Valid() && categories == old(categories) && settings == old(settings)
      ensures !AuthMiddleware(auth) ==> r == Unauthorized && products == old(products)
      ensures AuthMiddleware(auth) && !Receive(file).Ok? ==>
                !r.Ok? && r.Status() == Receive(file).Status() && products == old(products)
      ensures AuthMiddleware(auth) && Receive(file).Ok? ==>
                match IndexOfId(old(products), ProductId, key)
                case None => r == NotFound && products == old(products)
                case Some(k) =>
                  products == old(products)[k := ReviseProduct(old(products)[k], body, Receive(file).value)]
                  && r == Ok(products[k])
    {
      if !AuthMiddleware(auth) {
        return Unauthorized;
      }
      var upload := Receive(file);
      if !upload.Ok? {
        return upload.PropagateFailure();
      }
      match IndexOfId(products, ProductId, key)
      case None =>
        r := NotFound;
      case Some(k) =>
        products := products[k := ReviseProduct(products[k], body, upload.value)];
        r := Ok(products[k]);
    }

    /** `DELETE /api/admin/products/:id`: drops every product carrying the id. */
    method DeleteProduct(auth: Option<string>, key: Option<int>) returns (r: Reply<()>)
      requires Valid()
      modifies this
      ensures Valid() && categories == old(categories) && settings == old(settings)
      ensures !AuthMiddleware(auth) ==> r == Unauthorized && products == old(products)
      ensures AuthMiddleware(auth) ==> r == Ok(()) && products == WithoutId(old(products), ProductId, key)
    {
      if !AuthMiddleware(auth) {
        return Unauthorized;
      }
      products := WithoutId(products, ProductId, key);
      r := Ok(());
    }

    /** `GET /api/admin/settings`: served without the guard. */
    method AdminSettings() returns (s: Settings)
      ensures s == settings
    {
      s := settings;
    }

    /** `PUT /api/admin/settings`: the guard, then the `logo` upload, then the merge. */
    method UpdateSettings(auth: Option<string>, file: Option<UploadedFile>, body: SettingsBody)
      returns (r: Reply<Settings>)
      requires Valid()
      modifies this
      ensures Valid() && categories == old(categories) && products == old(products)
      ensures !AuthMiddleware(auth) ==> r == Unauthorized && settings == old(settings)
      ensures AuthMiddleware(auth) && !Receive(file).Ok? ==>
                !r.Ok? && r.Status() == Receive(file).Status() && settings == old(settings)
      ensures AuthMiddleware(auth) && Receive(file).Ok? ==>
                settings == MergeSettings(old(settings), body, Receive(file).value) && r == Ok(settings)
    {
      if !AuthMiddleware(auth) {
        return Unauthorized;
      }
      var upload := Receive(file);
      if !upload.Ok? {
        return upload.PropagateFailure();
      }
      settings := MergeSettings(settings, body, upload.value);
      r := Ok(settings);
    }

    /** `GET /api/menu`. */
    method GetMenu() returns (m: seq<MenuSection>)
      ensures m == Menu(categories, products)
    {
      m := Menu(categories, products);
    }

    /** `GET /api/settings`. */
    method GetSettings() returns (p: PublicSettings)
      ensures p == Public(settings)
    {
      p := Public(settings);
    }
  }

  /** On the seed data: deleting category 2 and then creating a category hands
      out id 4 again, so two categories carry id 4. */
  method DeleteThenCreateReusesId(now: string) returns (older: Category, newer: Category)
    ensures older.id == 4 && newer.id == 4
    ensures older.name == Some("الحلويات") && newer.name == Some("مشاوي")
  {
    var store := new Store(now);
    var header := Some(Auth.BearerPrefix + Token);
    TokenAccepted();
    var deleted := store.DeleteCategory(header, Some(2));
    SeedCategoriesNumbered(now);
    IdReuseAfterDelete(SeedCategories(now), CategoryId, 2);
    var created := store.CreateCategory(header, CategoryBody(Some("مشاوي"), None, None, None), now);
    older, newer := store.categories[2], created.value;
  }
}
