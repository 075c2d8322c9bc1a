/** The request schemas of the catalog (backend/schemas.py): which field values
    a `Product` and an `Order` accept, the defaults they fill in, the
    violations a rejected body reports, and the dictionary `model_dump()`
    produces. */
module Schemas {
  import opened Values

  /** How a field arrives in a request body: left out, sent as JSON null, or
      sent with a value. */
  datatype Field<+T> = Omitted | Null | Given(value: T)

  datatype Category = Course | Prompt | Video | Template | Bundle | Other

  datatype Level = Beginner | Intermediate | Advanced

  datatype OrderStatus = Pending | Paid | Failed

  function CategoryName(c: Category): string
  {
    match c
    case Course => "course"
    case Prompt => "prompt"
    case Video => "video"
    case Template => "template"
    case Bundle => "bundle"
    case Other => "other"
  }

  const CategoryNames: seq<string> := ["course", "prompt", "video", "template", "bundle", "other"]

  /** The `Literal[...]` check: a string is accepted exactly when it names a
      category. */
  function ParseCategory(s: string): (r: Option<Category>)
    ensures forall c :: r == Some(c) <==> CategoryName(c) == s
    ensures r.None? <==> s !in CategoryNames
  {
    if s == "course" then Some(Course)
    else if s == "prompt" then Some(Prompt)
    else if s == "video" then Some(Video)
    else if s == "template" then Some(Template)
    else if s == "bundle" then Some(Bundle)
    else if s == "other" then Some(Other)
    else None
  }

  function LevelName(l: Level): string
  {
    match l
    case Beginner => "beginner"
    case Intermediate => "intermediate"
    case Advanced => "advanced"
  }

  const LevelNames: seq<string> := ["beginner", "intermediate", "advanced"]

  function ParseLevel(s: string): (r: Option<Level>)
    ensures forall l :: r == Some(l) <==> LevelName(l) == s
    ensures r.None? <==> s !in LevelNames
  {
    if s == "beginner" then Some(Beginner)
    else if s == "intermediate" then Some(Intermediate)
    else if s == "advanced" then Some(Advanced)
    else None
  }

  function StatusName(s: OrderStatus): string
  {
    match s
    case Pending => "pending"
    case Paid => "paid"
    case Failed => "failed"
  }

  const StatusNames: seq<string> := ["pending", "paid", "failed"]

  function ParseStatus(s: string): (r: Option<OrderStatus>)
    ensures forall t :: r == Some(t) <==> StatusName(t) == s
    ensures r.None? <==> s !in StatusNames
  {
    if s == "pending" then Some(Pending)
    else if s == "paid" then Some(Paid)
    else if s == "failed" then Some(Failed)
    else None
  }

  /** The kinds of violation a field can report. */
  datatype Rule =
    | Missing                          // a required field is absent
    | NotNullable                      // null where the field's type has no None
    | TooShort(min: nat)               // fewer characters than `min_length`
    | TooLong(max: nat)                // more characters than `max_length`
    | Below(bound: real)               // less than the `ge` bound
    | Above(bound: real)               // greater than the `le` bound
    | NotAllowed(choices: seq<string>) // not one of the `Literal` strings
    | NotUrl                           // rejected by the URL check

  datatype Violation = Violation(field: string, rule: Rule)

  /** The outcome of checking one field. */
  datatype Checked<+T> = Pass(value: T) | Fail(rule: Rule)

  function Report<T>(name: string, c: Checked<T>): (r: seq<Violation>)
    ensures r == [] <==> c.Pass?
    ensures forall v | v in r :: v.field == name
  {
    if c.Fail? then [Violation(name, c.rule)] else []
  }

  function RequiredText(f: Field<string>): Checked<string>
  {
    match f
    case Omitted => Fail(Missing)
    case Null => Fail(NotNullable)
    case Given(s) => Pass(s)
  }

  /** `str = Field(..., min_length=lo, max_length=hi)` */
  function BoundedText(f: Field<string>, lo: nat, hi: nat): Checked<string>
  {
    match f
    case Omitted => Fail(Missing)
    case Null => Fail(NotNullable)
    case Given(s) =>
      if |s| < lo then Fail(TooShort(lo))
      else if |s| > hi then Fail(TooLong(hi))
      else Pass(s)
  }

  /** A `float` field with an optional default and optional `ge`/`le` bounds.
      As in pydantic, a default is used as it is, without being checked. */
  function Number(f: Field<real>, default: Option<real>, lo: Option<real>, hi: Option<real>): Checked<real>
  {
    match f
    case Omitted => if default.Some? then Pass(default.value) else Fail(Missing)
    case Null => Fail(NotNullable)
    case Given(x) =>
      if lo.Some? && x < lo.value then Fail(Below(lo.value))
      else if hi.Some? && x > hi.value then Fail(Above(hi.value))
      else Pass(x)
  }

  function CountWithDefault(f: Field<int>, default: int): Checked<int>
  {
    match f
    case Omitted => Pass(default)
    case Null => Fail(NotNullable)
    case Given(n) => Pass(n)
  }

  function CategoryField(f: Field<string>): Checked<Category>
  {
    match f
    case Omitted => Pass(Other)
    case Null => Fail(NotNullable)
    case Given(s) => if ParseCategory(s).Some? then Pass(ParseCategory(s).value) else Fail(NotAllowed(CategoryNames))
  }

  function LevelField(f: Field<string>): Checked<Option<Level>>
  {
    match f
    case Omitted => Pass(None)
    case Null => Pass(None)
    case Given(s) => if ParseLevel(s).Some? then Pass(ParseLevel(s)) else Fail(NotAllowed(LevelNames))
  }

  function StatusField(f: Field<string>): Checked<OrderStatus>
  {
    match f
    case Omitted => Pass(Pending)
    case Null => Fail(NotNullable)
    case Given(s) => if ParseStatus(s).Some? then Pass(ParseStatus(s).value) else Fail(NotAllowed(StatusNames))
  }

  /** `Optional[HttpUrl] = None`; the URL syntax itself is `isUrl`. */
  function UrlField(f: Field<string>, isUrl: string -> bool): Checked<Option<string>>
  {
    match f
    case Omitted => Pass(None)
    case Null => Pass(None)
    case Given(s) => if isUrl(s) then Pass(Some(s)) else Fail(NotUrl)
  }

  function OptionalList(f: Field<seq<string>>): Checked<Option<seq<string>>>
  {
    match f
    case Omitted => Pass(None)
    case Null => Pass(None)
    case Given(xs) => Pass(Some(xs))
  }

  /** A field that may be left out or null stands for `None`. */
  predicate Nullable<T(==)>(f: Field<T>, o: Option<T>)
  {
    match o
    case None => f.Omitted? || f.Null?
    case Some(x) => f == Given(x)
  }

  // ---------------------------------------------------------------- Product

  const DefaultRating: real := 4.8

  datatype Product = Product(
    title: string,
    slug: string,
    description: string,
    price: real,
    category: Category,
    level: Option<Level>,
    rating: real,
    ratingCount: int,
    coverUrl: Option<string>,
    contents: Option<seq<string>>,
    benefits: Option<seq<string>>,
    tags: Option<seq<string>>)

  /** A product body as it arrives, before validation. */
  datatype ProductDraft = ProductDraft(
    title: Field<string>,
    slug: Field<string>,
    description: Field<string>,
    price: Field<real>,
    category: Field<string>,
    level: Field<string>,
    rating: Field<real>,
    ratingCount: Field<int>,
    coverUrl: Field<string>,
    contents: Field<seq<string>>,
    benefits: Field<seq<string>>,
    tags: Field<seq<string>>)

  const ProductFields: set<string> :=
    {"title", "slug", "description", "price", "category", "level", "rating",
     "rating_count", "cover_url", "contents", "benefits", "tags"}

  /** The constraint table of a product. `price` has no upper bound and
      `rating_count` no bound at all. */
  predicate ValidProduct(p: Product, isUrl: string -> bool)
  {
    && 3 <= |p.title| <= 120
    && 3 <= |p.slug| <= 140
    && 20 <= |p.description| <= 5000
    && p.price >= 0.0
    && 0.0 <= p.rating <= 5.0
    && (p.coverUrl.Some? ==> isUrl(p.coverUrl.value))
  }

  /** `p` is what the body `d` asks for: sent fields are carried unchanged,
      omitted ones take their defaults (category "other", no level,
      rating 4.8, rating_count 0), and null stands for None where allowed. */
  predicate ProductAgrees(d: ProductDraft, p: Product)
  {
    && d.title == Given(p.title)
    && d.slug == Given(p.slug)
    && d.description == Given(p.description)
    && d.price == Given(p.price)
    && (if d.category.Omitted? then p.category == Other else d.category == Given(CategoryName(p.category)))
    && (match p.level
        case None => d.level.Omitted? || d.level.Null?
        case Some(l) => d.level == Given(LevelName(l)))
    && (if d.rating.Omitted? then p.rating == DefaultRating else d.rating == Given(p.rating))
    && (if d.ratingCount.Omitted? then p.ratingCount == 0 else d.ratingCount == Given(p.ratingCount))
    && Nullable(d.coverUrl, p.coverUrl)
    && Nullable(d.contents, p.contents)
    && Nullable(d.benefits, p.benefits)
    && Nullable(d.tags, p.tags)
  }

  /** The outcome of checking each field of a product body on its own. */
  datatype ProductChecks = ProductChecks(
    title: Checked<string>,
    slug: Checked<string>,
    description: Checked<string>,
    price: Checked<real>,
    category: Checked<Category>,
    level: Checked<Option<Level>>,
    rating: Checked<real>,
    ratingCount: Checked<int>,
    coverUrl: Checked<Option<string>>,
    contents: Checked<Option<seq<string>>>,
    benefits: Checked<Option<seq<string>>>,
    tags: Checked<Option<seq<string>>>)

  /** Every field of a product body against its declaration. */
  function CheckProduct(d: ProductDraft, isUrl: string -> bool): ProductChecks
  {
    ProductChecks(
      BoundedText(d.title, 3, 120),
      BoundedText(d.slug, 3, 140),
      BoundedText(d.description, 20, 5000),
      Number(d.price, None, Some(0.0), None),
      CategoryField(d.category),
      LevelField(d.level),
      Number(d.rating, Some(DefaultRating), Some(0.0), Some(5.0)),
      CountWithDefault(d.ratingCount, 0),
      UrlField(d.coverUrl, isUrl),
      OptionalList(d.contents),
      OptionalList(d.benefits),
      OptionalList(d.tags))
  }

  predicate ProductPasses(c: ProductChecks)
  {
    && c.title.Pass? && c.slug.Pass? && c.description.Pass? && c.price.Pass?
    && c.category.Pass? && c.level.Pass? && c.rating.Pass? && c.ratingCount.Pass?
    && c.coverUrl.Pass? && c.contents.Pass? && c.benefits.Pass? && c.tags.Pass?
  }

  /** The check of the field `name` failed with `rule`. */
  predicate FailedWith(c: ProductChecks, name: string, rule: Rule)
  {
    || (name == "title" && c.title == Fail(rule))
    || (name == "slug" && c.slug == Fail(rule))
    || (name == "description" && c.description == Fail(rule))
    || (name == "price" && c.price == Fail(rule))
    || (name == "category" && c.category == Fail(rule))
    || (name == "level" && c.level == Fail(rule))
    || (name == "rating" && c.rating == Fail(rule))
    || (name == "rating_count" && c.ratingCount == Fail(rule))
    || (name == "cover_url" && c.coverUrl == Fail(rule))
    || (name == "contents" && c.contents == Fail(rule))
    || (name == "benefits" && c.benefits == Fail(rule))
    || (name == "tags" && c.tags == Fail(rule))
  }

  /** The violations of a product body, in field order: one for each field
      whose check failed, under that field's name. */
  function ProductErrors(c: ProductChecks): (errors: seq<Violation>)
    ensures errors == [] <==> ProductPasses(c)
    ensures forall v | v in errors :: v.field in ProductFields
    ensures forall v | v in errors :: FailedWith(c, v.field, v.rule)
  {
    Report("title", c.title) + Report("slug", c.slug) + Report("description", c.description)
    + Report("price", c.price) + Report("category", c.category) + Report("level", c.level)
    + Report("rating", c.rating) + Report("rating_count", c.ratingCount)
    + Report("cover_url", c.coverUrl) + Report("contents", c.contents)
    + Report("benefits", c.benefits) + Report("tags", c.tags)
  }

  /** Validation of a product body: the whole body is accepted, or it is
      rejected with one violation per offending field. */
  function ValidateProduct(d: ProductDraft, isUrl: string -> bool): (r: Result<Product, seq<Violation>>)
    ensures r.Ok? ==> ValidProduct(r.value, isUrl) && ProductAgrees(d, r.value)
    ensures r.Err? ==> r.error != [] && forall v | v in r.error :: v.field in ProductFields
  {
    var c := CheckProduct(d, isUrl);
    if !ProductPasses(c) then Err(ProductErrors(c))
    else
      Ok(Product(c.title.value, c.slug.value, c.description.value, c.price.value, c.category.value,
                 c.level.value, c.rating.value, c.ratingCount.value, c.coverUrl.value,
                 c.contents.value, c.benefits.value, c.tags.value))
  }

  /** Every failing check is reported, under its field's name and with the
      rule it broke. */
  lemma FailuresReported(c: ProductChecks)
    ensures c.title.Fail? ==> Violation("title", c.title.rule) in ProductErrors(c)
    ensures c.slug.Fail? ==> Violation("slug", c.slug.rule) in ProductErrors(c)
    ensures c.description.Fail? ==> Violation("description", c.description.rule) in ProductErrors(c)
    ensures c.price.Fail? ==> Violation("price", c.price.rule) in ProductErrors(c)
    ensures c.category.Fail? ==> Violation("category", c.category.rule) in ProductErrors(c)
    ensures c.level.Fail? ==> Violation("level", c.level.rule) in ProductErrors(c)
    ensures c.rating.Fail? ==> Violation("rating", c.rating.rule) in ProductErrors(c)
    ensures c.ratingCount.Fail? ==> Violation("rating_count", c.ratingCount.rule) in ProductErrors(c)
    ensures c.coverUrl.Fail? ==> Violation("cover_url", c.coverUrl.rule) in ProductErrors(c)
    ensures c.contents.Fail? ==> Violation("contents", c.contents.rule) in ProductErrors(c)
    ensures c.benefits.Fail? ==> Violation("benefits", c.benefits.rule) in ProductErrors(c)
    ensures c.tags.Fail? ==> Violation("tags", c.tags.rule) in ProductErrors(c)
  {
  }

  /** A body with a failing check is rejected with the violations of all its
      failing fields. */
  lemma RejectedWithErrors(d: ProductDraft, isUrl: string -> bool)
    requires !ProductPasses(CheckProduct(d, isUrl))
    ensures ValidateProduct(d, isUrl) == Err(ProductErrors(CheckProduct(d, isUrl)))
  {
  }

  /** Which check fails, and with which rule, for each way a body can break
      the constraint table. */
  lemma ProductRejections(d: ProductDraft, isUrl: string -> bool)
    ensures d.title.Omitted? ==> CheckProduct(d, isUrl).title == Fail(Missing)
    ensures d.title.Given? && |d.title.value| < 3 ==> CheckProduct(d, isUrl).title == Fail(TooShort(3))
    ensures d.title.Given? && |d.title.value| > 120 ==> CheckProduct(d, isUrl).title == Fail(TooLong(120))
    ensures d.slug.Given? && |d.slug.value| < 3 ==> CheckProduct(d, isUrl).slug == Fail(TooShort(3))
    ensures d.slug.Given? && |d.slug.value| > 140 ==> CheckProduct(d, isUrl).slug == Fail(TooLong(140))
    ensures d.description.Given? && |d.description.value| < 20 ==>
              CheckProduct(d, isUrl).description == Fail(TooShort(20))
    ensures d.description.Given? && |d.description.value| > 5000 ==>
              CheckProduct(d, isUrl).description == Fail(TooLong(5000))
    ensures d.price.Omitted? ==> CheckProduct(d, isUrl).price == Fail(Missing)
    ensures d.price.Given? && d.price.value < 0.0 ==> CheckProduct(d, isUrl).price == Fail(Below(0.0))
    ensures d.category.Null? ==> CheckProduct(d, isUrl).category == Fail(NotNullable)
    ensures d.category.Given? && d.category.value !in CategoryNames ==>
              CheckProduct(d, isUrl).category == Fail(NotAllowed(CategoryNames))
    ensures d.level.Given? && d.level.value !in LevelNames ==>
              CheckProduct(d, isUrl).level == Fail(NotAllowed(LevelNames))
    ensures d.rating.Given? && d.rating.value < 0.0 ==> CheckProduct(d, isUrl).rating == Fail(Below(0.0))
    ensures d.rating.Given? && d.rating.value > 5.0 ==> CheckProduct(d, isUrl).rating == Fail(Above(5.0))
    ensures d.coverUrl.Given? && !isUrl(d.coverUrl.value) ==> CheckProduct(d, isUrl).coverUrl == Fail(NotUrl)
  {
  }

  /** End to end: a negative price is rejected, and the rejection names the
      price and its `ge=0` bound. */
  lemma NegativePriceRejected(d: ProductDraft, isUrl: string -> bool)
    requires d.price.Given? && d.price.value < 0.0
    ensures ValidateProduct(d, isUrl).Err?
    ensures Violation("price", Below(0.0)) in ValidateProduct(d, isUrl).error
  {
    ProductRejections(d, isUrl);
    FailuresReported(CheckProduct(d, isUrl));
    RejectedWithErrors(d, isUrl);
  }

  /** The checks of a body that asks for a valid product all pass, with that
      product's fields as their values. */
  lemma ChecksOfValid(d: ProductDraft, p: Product, isUrl: string -> bool)
    requires ValidProduct(p, isUrl) && ProductAgrees(d, p)
    ensures CheckProduct(d, isUrl) ==
              ProductChecks(Pass(p.title), Pass(p.slug), Pass(p.description), Pass(p.price),
                            Pass(p.category), Pass(p.level), Pass(p.rating), Pass(p.ratingCount),
                            Pass(p.coverUrl), Pass(p.contents), Pass(p.benefits), Pass(p.tags))
  {
    assert ParseCategory(CategoryName(p.category)) == Some(p.category);
    if p.level.Some? {
      assert ParseLevel(LevelName(p.level.value)) == p.level;
    }
  }

  /** Every valid product is accepted from every body that asks for it, so
      validation rejects exactly the bodies that no valid product agrees with. */
  lemma ValidateProductComplete(d: ProductDraft, p: Product, isUrl: string -> bool)
    requires ValidProduct(p, isUrl) && ProductAgrees(d, p)
    ensures ValidateProduct(d, isUrl) == Ok(p)
  {
    ChecksOfValid(d, p, isUrl);
  }

  /** `model_dump()` of a product: every field under its Python name, enums
      as their strings and None as null. */
  function ProductDump(p: Product): Document
  {
    map[
      "title" := VStr(p.title),
      "slug" := VStr(p.slug),
      "description" := VStr(p.description),
      "price" := VNum(p.price),
      "category" := VStr(CategoryName(p.category)),
      "level" := LevelValue(p.level),
      "rating" := VNum(p.rating),
      "rating_count" := VInt(p.ratingCount),
      "cover_url" := NullableText(p.coverUrl),
      "contents" := NullableTexts(p.contents),
      "benefits" := NullableTexts(p.benefits),
      "tags" := NullableTexts(p.tags)]
  }

  /** The dump has exactly the twelve fields of a product. */
  lemma ProductDumpKeys(p: Product)
    ensures ProductDump(p).Keys == ProductFields
  {
  }

  /** The dump has none of the fields the store writes itself. */
  lemma ProductDumpLeavesStoreFields(p: Product)
    ensures "_id" !in ProductDump(p)
    ensures "created_at" !in ProductDump(p) && "updated_at" !in ProductDump(p)
  {
  }

  function LevelValue(l: Option<Level>): Value
  {
    match l
    case None => VNull
    case Some(l) => VStr(LevelName(l))
  }

  // Reading a stored document back, one field at a time.

  function TextAt(doc: Document, key: string): Option<string>
  {
    if key in doc && doc[key].VStr? then Some(doc[key].s) else None
  }

  function RealAt(doc: Document, key: string): Option<real>
  {
    if key in doc && doc[key].VNum? then Some(doc[key].r) else None
  }

  function IntAt(doc: Document, key: string): Option<int>
  {
    if key in doc && doc[key].VInt? then Some(doc[key].i) else None
  }

  function CategoryAt(doc: Document, key: string): Option<Category>
  {
    if TextAt(doc, key).Some? then ParseCategory(TextAt(doc, key).value) else None
  }

  function LevelAt(doc: Document, key: string): Option<Option<Level>>
  {
    if key !in doc then None
    else match doc[key]
      case VNull => Some(None)
      case VStr(s) => if ParseLevel(s).Some? then Some(ParseLevel(s)) else None
      case _ => None
  }

  function NullableTextAt(doc: Document, key: string): Option<Option<string>>
  {
    if key !in doc then None
    else match doc[key]
      case VNull => Some(None)
      case VStr(s) => Some(Some(s))
      case _ => None
  }

  function NullableTextsAt(doc: Document, key: string): Option<Option<seq<string>>>
  {
    if key in doc then NullableTextsOf(doc[key]) else None
  }

  /** Reads a stored product back from its document, ignoring any other
      fields (the store adds `_id`, `created_at` and `updated_at`). */
  function ProductFromDocument(doc: Document): Option<Product>
  {
    var title := TextAt(doc, "title");
    var slug := TextAt(doc, "slug");
    var description := TextAt(doc, "description");
    var price := RealAt(doc, "price");
    var category := CategoryAt(doc, "category");
    var level := LevelAt(doc, "level");
    var rating := RealAt(doc, "rating");
    var ratingCount := IntAt(doc, "rating_count");
    var coverUrl := NullableTextAt(doc, "cover_url");
    var contents := NullableTextsAt(doc, "contents");
    var benefits := NullableTextsAt(doc, "benefits");
    var tags := NullableTextsAt(doc, "tags");
    if && title.Some? && slug.Some? && description.Some? && price.Some? && category.Some?
       && level.Some? && rating.Some? && ratingCount.Some? && coverUrl.Some? && contents.Some?
       && benefits.Some? && tags.Some?
    then Some(Product(title.value, slug.value, description.value, price.value, category.value,
                      level.value, rating.value, ratingCount.value, coverUrl.value,
                      contents.value, benefits.value, tags.value))
    else None
  }

  /** The scalar fields of a dump read back as the product's. */
  lemma DumpScalarsRead(p: Product)
    ensures TextAt(ProductDump(p), "title") == Some(p.title)
    ensures TextAt(ProductDump(p), "slug") == Some(p.slug)
    ensures TextAt(ProductDump(p), "description") == Some(p.description)
    ensures RealAt(ProductDump(p), "price") == Some(p.price)
    ensures RealAt(ProductDump(p), "rating") == Some(p.rating)
    ensures IntAt(ProductDump(p), "rating_count") == Some(p.ratingCount)
  {
  }

  /** A category stored under a key by its name reads back as itself. */
  lemma CategoryAtRead(doc: Document, key: string, c: Category)
    requires key in doc && doc[key] == VStr(CategoryName(c))
    ensures CategoryAt(doc, key) == Some(c)
  {
    assert ParseCategory(CategoryName(c)) == Some(c);
  }

  /** A level stored under a key (null for none) reads back as itself. */
  lemma LevelAtRead(doc: Document, key: string, l: Option<Level>)
    requires key in doc && doc[key] == LevelValue(l)
    ensures LevelAt(doc, key) == Some(l)
  {
    if l.Some? {
      assert ParseLevel(LevelName(l.value)) == l;
    }
  }

  /** The category and level of a dump read back as the product's. */
  lemma DumpChoicesRead(p: Product)
    ensures CategoryAt(ProductDump(p), "category") == Some(p.category)
    ensures LevelAt(ProductDump(p), "level") == Some(p.level)
  {
    var r := ProductDump(p);
    CategoryAtRead(r, "category", p.category);
    LevelAtRead(r, "level", p.level);
  }

  /** A list of strings stored under a key reads back as that list. */
  lemma TextsAtRead(doc: Document, key: string, xs: Option<seq<string>>)
    requires key in doc && doc[key] == NullableTexts(xs)
    ensures NullableTextsAt(doc, key) == Some(xs)
  {
    TextsRoundTrip(xs);
  }

  /** The optional fields of a dump read back as the product's. */
  lemma DumpOptionalsRead(p: Product)
    ensures NullableTextAt(ProductDump(p), "cover_url") == Some(p.coverUrl)
    ensures NullableTextsAt(ProductDump(p), "contents") == Some(p.contents)
    ensures NullableTextsAt(ProductDump(p), "benefits") == Some(p.benefits)
    ensures NullableTextsAt(ProductDump(p), "tags") == Some(p.tags)
  {
    var r := ProductDump(p);
    TextsAtRead(r, "contents", p.contents);
    TextsAtRead(r, "benefits", p.benefits);
    TextsAtRead(r, "tags", p.tags);
  }

  /** The dump keeps every field: reading it back gives the product. */
  lemma ProductDumpReadsBack(p: Product)
    ensures ProductFromDocument(ProductDump(p)) == Some(p)
  {
    DumpScalarsRead(p);
    DumpChoicesRead(p);
    DumpOptionalsRead(p);
  }

  /** Reading a product back looks only at the product's own fields:
      setting any other field changes nothing. */
  lemma ReadIgnoresOtherField(doc: Document, key: string, v: Value)
    requires key !in ProductFields
    ensures ProductFromDocument(doc[key := v]) == ProductFromDocument(doc)
  {
  }

  /** The strings of a JSON list that holds only strings. */
  function TextsOf(vs: seq<Value>): Option<seq<string>>
  {
    if vs == [] then Some([])
    else if !vs[0].VStr? then None
    else match TextsOf(vs[1..])
      case None => None
      case Some(rest) => Some([vs[0].s] + rest)
  }

  function NullableTextsOf(v: Value): Option<Option<seq<string>>>
  {
    match v
    case VNull => Some(None)
    case VList(items) => (match TextsOf(items) case None => None case Some(xs) => Some(Some(xs)))
    case _ => None
  }

  lemma {:induction false} TextsRoundTrip(xs: Option<seq<string>>)
    ensures NullableTextsOf(NullableTexts(xs)) == Some(xs)
  {
    if xs.Some? {
      TextsOfTexts(xs.value);
    }
  }

  lemma {:induction false} TextsOfTexts(xs: seq<string>)
    ensures TextsOf(Texts(xs)) == Some(xs)
  {
    if xs != [] {
      assert Texts(xs)[1..] == Texts(xs[1..]);
      TextsOfTexts(xs[1..]);
      assert [xs[0]] + xs[1..] == xs;
    }
  }

  // ------------------------------------------------------------------ Order

  datatype Order = Order(
    productId: string,
    email: string,
    amount: real,
    status: OrderStatus,
    downloadUrl: Option<string>)

  datatype OrderDraft = OrderDraft(
    productId: Field<string>,
    email: Field<string>,
    amount: Field<real>,
    status: Field<string>,
    downloadUrl: Field<string>)

  const OrderFields: set<string> := {"product_id", "email", "amount", "status", "download_url"}

  /** An order constrains only its download URL's syntax: any product id,
      any email string and any amount are accepted. */
  predicate ValidOrder(o: Order, isUrl: string -> bool)
  {
    o.downloadUrl.Some? ==> isUrl(o.downloadUrl.value)
  }

  /** `o` is what the body `d` asks for; an omitted status is "pending". */
  predicate OrderAgrees(d: OrderDraft, o: Order)
  {
    && d.productId == Given(o.productId)
    && d.email == Given(o.email)
    && d.amount == Given(o.amount)
    && (if d.status.Omitted? then o.status == Pending else d.status == Given(StatusName(o.status)))
    && Nullable(d.downloadUrl, o.downloadUrl)
  }

  /** The outcome of checking each field of an order body. */
  datatype OrderChecks = OrderChecks(
    productId: Checked<string>,
    email: Checked<string>,
    amount: Checked<real>,
    status: Checked<OrderStatus>,
    downloadUrl: Checked<Option<string>>)

  /** Every field of an order body against its declaration. */
  function CheckOrder(d: OrderDraft, isUrl: string -> bool): OrderChecks
  {
    OrderChecks(
      RequiredText(d.productId),
      RequiredText(d.email),
      Number(d.amount, None, None, None),
      StatusField(d.status),
      UrlField(d.downloadUrl, isUrl))
  }

  predicate OrderPasses(c: OrderChecks)
  {
    c.productId.Pass? && c.email.Pass? && c.amount.Pass? && c.status.Pass? && c.downloadUrl.Pass?
  }

  /** The check of the order field `name` failed with `rule`. */
  predicate OrderFailedWith(c: OrderChecks, name: string, rule: Rule)
  {
    || (name == "product_id" && c.productId == Fail(rule))
    || (name == "email" && c.email == Fail(rule))
    || (name == "amount" && c.amount == Fail(rule))
    || (name == "status" && c.status == Fail(rule))
    || (name == "download_url" && c.downloadUrl == Fail(rule))
  }

  /** The violations of an order body, in field order: exactly the failed
      checks, each under its field's name with its rule. */
  function OrderErrors(c: OrderChecks): (errors: seq<Violation>)
    ensures errors == [] <==> OrderPasses(c)
    ensures forall v | v in errors :: v.field in OrderFields
    ensures forall name, rule :: Violation(name, rule) in errors <==> OrderFailedWith(c, name, rule)
  {
    Report("product_id", c.productId) + Report("email", c.email) + Report("amount", c.amount)
    + Report("status", c.status) + Report("download_url", c.downloadUrl)
  }

  /** Validation of an order body: accepted whole, or rejected with the
      violations of exactly the failed checks. */
  function ValidateOrder(d: OrderDraft, isUrl: string -> bool): (r: Result<Order, seq<Violation>>)
    ensures r.Ok? ==> ValidOrder(r.value, isUrl) && OrderAgrees(d, r.value)
    ensures r.Err? <==> !OrderPasses(CheckOrder(d, isUrl))
    ensures r.Err? ==> r.error != [] && forall v | v in r.error :: v.field in OrderFields
    ensures r.Err? ==>
              forall name, rule :: Violation(name, rule) in r.error <==> OrderFailedWith(CheckOrder(d, isUrl), name, rule)
    ensures d.status.Given? && d.status.value !in StatusNames ==>
              r.Err? && Violation("status", NotAllowed(StatusNames)) in r.error
  {
    var c := CheckOrder(d, isUrl);
    if !OrderPasses(c) then Err(OrderErrors(c))
    else Ok(Order(c.productId.value, c.email.value, c.amount.value, c.status.value, c.downloadUrl.value))
  }

  /** A required order field that is missing or null, a null status and a
      download URL that is not a URL are each reported under that field. */
  lemma OrderRejections(d: OrderDraft, isUrl: string -> bool)
    ensures d.productId.Omitted? ==> ValidateOrder(d, isUrl).Err? && Violation("product_id", Missing) in ValidateOrder(d, isUrl).error
    ensures d.productId.Null? ==> ValidateOrder(d, isUrl).Err? && Violation("product_id", NotNullable) in ValidateOrder(d, isUrl).error
    ensures d.email.Omitted? ==> ValidateOrder(d, isUrl).Err? && Violation("email", Missing) in ValidateOrder(d, isUrl).error
    ensures d.email.Null? ==> ValidateOrder(d, isUrl).Err? && Violation("email", NotNullable) in ValidateOrder(d, isUrl).error
    ensures d.amount.Omitted? ==> ValidateOrder(d, isUrl).Err? && Violation("amount", Missing) in ValidateOrder(d, isUrl).error
    ensures d.amount.Null? ==> ValidateOrder(d, isUrl).Err? && Violation("amount", NotNullable) in ValidateOrder(d, isUrl).error
    ensures d.status.Null? ==> ValidateOrder(d, isUrl).Err? && Violation("status", NotNullable) in ValidateOrder(d, isUrl).error
    ensures d.downloadUrl.Given? && !isUrl(d.downloadUrl.value) ==>
              ValidateOrder(d, isUrl).Err? && Violation("download_url", NotUrl) in ValidateOrder(d, isUrl).error
  {
    var c := CheckOrder(d, isUrl);
    assert d.productId.Omitted? ==> OrderFailedWith(c, "product_id", Missing);
    assert d.productId.Null? ==> OrderFailedWith(c, "product_id", NotNullable);
    assert d.email.Omitted? ==> OrderFailedWith(c, "email", Missing);
    assert d.email.Null? ==> OrderFailedWith(c, "email", NotNullable);
    assert d.amount.Omitted? ==> OrderFailedWith(c, "amount", Missing);
    assert d.amount.Null? ==> OrderFailedWith(c, "amount", NotNullable);
    assert d.status.Null? ==> OrderFailedWith(c, "status", NotNullable);
    assert d.downloadUrl.Given? && !isUrl(d.downloadUrl.value) ==> OrderFailedWith(c, "download_url", NotUrl);
  }

  /** Every valid order, whatever its amount and email, is accepted from
      every body that asks for it. */
  lemma ValidateOrderComplete(d: OrderDraft, o: Order, isUrl: string -> bool)
    requires ValidOrder(o, isUrl) && OrderAgrees(d, o)
    ensures ValidateOrder(d, isUrl) == Ok(o)
  {
    assert d.status.Given? ==> ParseStatus(StatusName(o.status)) == Some(o.status);
  }

  /** `model_dump()` of an order. */
  function OrderDump(o: Order): (r: Document)
    ensures r.Keys == OrderFields
    ensures r["product_id"] == VStr(o.productId) && r["email"] == VStr(o.email)
    ensures r["amount"] == VNum(o.amount) && r["status"] == VStr(StatusName(o.status))
    ensures r["download_url"] == NullableText(o.downloadUrl)
    ensures OrderFromDocument(r) == Some(o)
  {
    assert ParseStatus(StatusName(o.status)) == Some(o.status);
    map[
      "product_id" := VStr(o.productId),
      "email" := VStr(o.email),
      "amount" := VNum(o.amount),
      "status" := VStr(StatusName(o.status)),
      "download_url" := NullableText(o.downloadUrl)]
  }

  /** Reads a stored order back from its document, ignoring the fields the
      store adds. */
  function OrderFromDocument(doc: Document): Option<Order>
  {
    if !(OrderFields <= doc.Keys) then None
    else if !(doc["product_id"].VStr? && doc["email"].VStr? && doc["amount"].VNum?
              && doc["status"].VStr?) then None
    else if ParseStatus(doc["status"].s).None? then None
    else match doc["download_url"]
      case VNull =>
        Some(Order(doc["product_id"].s, doc["email"].s, doc["amount"].r,
                   ParseStatus(doc["status"].s).value, None))
      case VStr(u) =>
        Some(Order(doc["product_id"].s, doc["email"].s, doc["amount"].r,
                   ParseStatus(doc["status"].s).value, Some(u)))
      case _ => None
  }
}
