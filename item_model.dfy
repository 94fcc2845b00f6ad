/** The item schema: its enumerations, defaults and constraints, and how a
    request body becomes a stored item (casting, defaults, then validation). */
module ItemModel {
  import opened Common

  datatype Category = Electronics | Vehicles | Equipment | Sports | Tools | Other

  /** The stored spelling of a category. */
  function CategoryName(c: Category): string {
    match c
    case Electronics => "Electronics"
    case Vehicles => "Vehicles"
    case Equipment => "Equipment"
    case Sports => "Sports"
    case Tools => "Tools"
    case Other => "Other"
  }

  /** The enum validator of `category`: a string is accepted exactly when it
      spells one of the six categories. */
  function ParseCategory(s: string): (r: Option<Category>)
    ensures r.Some? ==> CategoryName(r.value) == s
    ensures r.None? ==> forall c :: CategoryName(c) != s
  {
    if s == "Electronics" then Some(Electronics)
    else if s == "Vehicles" then Some(Vehicles)
    else if s == "Equipment" then Some(Equipment)
    else if s == "Sports" then Some(Sports)
    else if s == "Tools" then Some(Tools)
    else if s == "Other" then Some(Other)
    else None
  }

  datatype Condition = New | LikeNew | Good | Fair

  function ConditionName(c: Condition): string {
    match c
    case New => "New"
    case LikeNew => "Like New"
    case Good => "Good"
    case Fair => "Fair"
  }

  /** The enum validator of `condition`. */
  function ParseCondition(s: string): (r: Option<Condition>)
    ensures r.Some? ==> ConditionName(r.value) == s
    ensures r.None? ==> forall c :: ConditionName(c) != s
  {
    if s == "New" then Some(New)
    else if s == "Like New" then Some(LikeNew)
    else if s == "Good" then Some(Good)
    else if s == "Fair" then Some(Fair)
    else None
  }

  /** Every category and condition survives a trip through its stored spelling. */
  lemma EnumNamesRoundTrip(c: Category, d: Condition)
    ensures ParseCategory(CategoryName(c)) == Some(c)
    ensures ParseCondition(ConditionName(d)) == Some(d)
  {
    match c
    case Electronics =>
    case Vehicles =>
    case Equipment =>
    case Sports =>
    case Tools =>
    case Other =>
  }

  const DEFAULT_IMAGE: string := "https://via.placeholder.com/400x300"
  const DEFAULT_TERMS: string := "Standard rental terms apply"

  /** A stored item. Prices are whole currency units per 24-hour rental. */
  datatype Item = Item(
    title: string,
    description: string,
    category: Category,
    price: int,
    deposit: int,
    image: string,
    owner: UserId,
    location: string,
    available: bool,
    features: seq<string>,
    condition: Condition,
    terms: string)

  /** A request body (or update body): each field may be absent. */
  datatype ItemInput = ItemInput(
    title: Option<string>,
    description: Option<string>,
    category: Option<string>,
    price: Option<int>,
    deposit: Option<int>,
    image: Option<string>,
    owner: Option<UserId>,
    location: Option<string>,
    available: Option<bool>,
    features: Option<seq<string>>,
    condition: Option<string>,
    terms: Option<string>)

  /** A body with no fields. */
  const EmptyInput: ItemInput :=
    ItemInput(None, None, None, None, None, None, None, None, None, None, None, None)

  // ---------------------------------------------------------------------------
  // String trimming, as applied by the `trim` option of `title`

  /** The characters JavaScript's String.prototype.trim removes. */
  predicate IsSpace(c: char) {
    c == ' ' || c == '\t' || c == '\n' || c == '\r' || c == '\U{000B}' || c == '\U{000C}'
    || c == '\U{00A0}' || c == '\U{1680}' || ('\U{2000}' <= c <= '\U{200A}')
    || c == '\U{2028}' || c == '\U{2029}' || c == '\U{202F}' || c == '\U{205F}'
    || c == '\U{3000}' || c == '\U{FEFF}'
  }

  /** `s` without its leading white space. */
  function TrimStart(s: string): (r: string)
    ensures |r| <= |s| && r == s[|s| - |r|..]
    ensures forall k :: 0 <= k < |s| - |r| ==> IsSpace(s[k])
    ensures r == [] || !IsSpace(r[0])
  {
    if |s| > 0 && IsSpace(s[0]) then TrimStart(s[1..]) else s
  }

  /** `s` without its trailing white space. */
  function TrimEnd(s: string): (r: string)
    ensures |r| <= |s| && r == s[..|r|]
    ensures forall k :: |r| <= k < |s| ==> IsSpace(s[k])
    ensures r == [] || !IsSpace(r[|r| - 1])
  {
    if |s| > 0 && IsSpace(s[|s| - 1]) then TrimEnd(s[..|s| - 1]) else s
  }

  /** `s` without white space at either end. */
  function Trim(s: string): (r: string)
    ensures r == [] || (!IsSpace(r[0]) && !IsSpace(r[|r| - 1]))
  {
    TrimEnd(TrimStart(s))
  }

  /** Trimming what is already trimmed changes nothing. */
  lemma TrimIdempotent(s: string)
    ensures Trim(Trim(s)) == Trim(s)
  {
    var t := Trim(s);
    assert t == [] || !IsSpace(t[0]);
    assert TrimStart(t) == t;
    assert t == [] || !IsSpace(t[|t| - 1]);
    assert TrimEnd(t) == t;
  }

  /** Trimming yields an empty string exactly when the input is all white space. */
  lemma TrimEmptyIffBlank(s: string)
    ensures Trim(s) == [] <==> forall k :: 0 <= k < |s| ==> IsSpace(s[k])
  {
    var u := TrimStart(s);
    if Trim(s) == [] {
      forall k | 0 <= k < |s| ensures IsSpace(s[k]) {
        if k >= |s| - |u| {
          assert s[k] == u[k - (|s| - |u|)];
        }
      }
    } else {
      assert u != [] && !IsSpace(u[0]);
      assert u[0] == s[|s| - |u|];
    }
  }

  // ---------------------------------------------------------------------------
  // Validation

  /** The invariant every stored item satisfies: required strings present
      (the title trimmed), price given and non-negative, deposit non-negative. */
  predicate ValidItem(it: Item) {
    && it.title != "" && Trim(it.title) == it.title
    && it.description != ""
    && it.location != ""
    && it.price >= 0
    && it.deposit >= 0
  }

  /** The schema's rules stated on a body: the cast title is non-empty;
      description and location are non-empty; a given category or condition
      is one of its enumeration; price is given and non-negative; a given
      deposit is non-negative; an owner is given. */
  predicate Admissible(d: ItemInput) {
    && d.title.Some? && Trim(d.title.value) != ""
    && d.description.Some? && d.description.value != ""
    && (d.category.None? || ParseCategory(d.category.value).Some?)
    && d.price.Some? && d.price.value >= 0
    && (d.deposit.None? || d.deposit.value >= 0)
    && d.owner.Some?
    && d.location.Some? && d.location.value != ""
    && (d.condition.None? || ParseCondition(d.condition.value).Some?)
  }

  /** The schema validators run over a body with its title trimmed and its
      defaults applied: the first broken constraint, if any. */
  function CheckItem(d: ItemInput): (r: Option<ValidationError>)
    ensures r.None? <==> Admissible(d)
  {
    var title := if d.title.Some? then Some(Trim(d.title.value)) else None;
    var category := d.category.GetOr("Other");
    var condition := d.condition.GetOr("Good");
    if title.None? || title.value == "" then Some(Required("title"))
    else if d.description.None? || d.description.value == "" then Some(Required("description"))
    else if ParseCategory(category).None? then Some(NotInEnum("category", category))
    else if d.price.None? then Some(Required("price"))
    else if d.price.value < 0 then Some(BelowMin("price"))
    else if d.deposit.GetOr(0) < 0 then Some(BelowMin("deposit"))
    else if d.owner.None? then Some(Required("owner"))
    else if d.location.None? || d.location.value == "" then Some(Required("location"))
    else if ParseCondition(condition).None? then Some(NotInEnum("condition", condition))
    else None
  }

  /** The document for an admissible body: trimmed title, defaults filled in. */
  function AssembleItem(d: ItemInput): (it: Item)
    requires Admissible(d)
    ensures ValidItem(it)
  {
    TrimIdempotent(d.title.value);
    Item(
      Trim(d.title.value),
      d.description.value,
      ParseCategory(d.category.GetOr("Other")).value,
      d.price.value,
      d.deposit.GetOr(0),
      d.image.GetOr(DEFAULT_IMAGE),
      d.owner.value,
      d.location.value,
      d.available.GetOr(true),
      d.features.GetOr([]),
      ParseCondition(d.condition.GetOr("Good")).value,
      d.terms.GetOr(DEFAULT_TERMS))
  }

  /** Creates the item document for a body: the title is trimmed, defaults
      fill absent fields, and the first broken constraint is reported. */
  function BuildItem(d: ItemInput): (r: Result<Item, ValidationError>)
    ensures r.Ok? <==> Admissible(d)
    ensures r.Ok? ==> ValidItem(r.value)
    ensures r.Ok? ==>
      && r.value.title == Trim(d.title.value) && r.value.owner == d.owner.value
      && r.value.price == d.price.value
      && r.value.description == d.description.value && r.value.location == d.location.value
    ensures r.Ok? ==> r.value.category == (if d.category.None? then Other else ParseCategory(d.category.value).value)
    ensures r.Ok? ==> r.value.condition == (if d.condition.None? then Good else ParseCondition(d.condition.value).value)
    ensures r.Ok? ==>
      && r.value.deposit == d.deposit.GetOr(0)
      && r.value.available == d.available.GetOr(true)
      && r.value.image == d.image.GetOr(DEFAULT_IMAGE)
      && r.value.terms == d.terms.GetOr(DEFAULT_TERMS)
      && r.value.features == d.features.GetOr([])
  {
    match CheckItem(d)
    case Some(e) => Err(e)
    case None => Ok(AssembleItem(d))
  }

  /** The body that recreates a stored item field for field. */
  function InputOf(it: Item): (d: ItemInput)
    requires ValidItem(it)
    ensures BuildItem(d) == Ok(it)
  {
    EnumNamesRoundTrip(it.category, it.condition);
    ItemInput(
      Some(it.title), Some(it.description), Some(CategoryName(it.category)),
      Some(it.price), Some(it.deposit), Some(it.image), Some(it.owner),
      Some(it.location), Some(it.available), Some(it.features),
      Some(ConditionName(it.condition)), Some(it.terms))
  }

  /** The fields of `patch` that are present, over those of `base`. */
  function Overlay(base: ItemInput, patch: ItemInput): ItemInput {
    ItemInput(
      if patch.title.Some? then patch.title else base.title,
      if patch.description.Some? then patch.description else base.description,
      if patch.category.Some? then patch.category else base.category,
      if patch.price.Some? then patch.price else base.price,
      if patch.deposit.Some? then patch.deposit else base.deposit,
      if patch.image.Some? then patch.image else base.image,
      if patch.owner.Some? then patch.owner else base.owner,
      if patch.location.Some? then patch.location else base.location,
      if patch.available.Some? then patch.available else base.available,
      if patch.features.Some? then patch.features else base.features,
      if patch.condition.Some? then patch.condition else base.condition,
      if patch.terms.Some? then patch.terms else base.terms)
  }

  /** What the update validators demand of a body: each field it gives
      meets that field's constraint. Fields it leaves out are not checked
      again. */
  predicate UpdateAdmissible(patch: ItemInput) {
    && (patch.title.Some? ==> Trim(patch.title.value) != "")
    && (patch.description.Some? ==> patch.description.value != "")
    && (patch.category.Some? ==> ParseCategory(patch.category.value).Some?)
    && (patch.price.Some? ==> patch.price.value >= 0)
    && (patch.deposit.Some? ==> patch.deposit.value >= 0)
    && (patch.location.Some? ==> patch.location.value != "")
    && (patch.condition.Some? ==> ParseCondition(patch.condition.value).Some?)
  }

  /** The item an update body produces from a stored item, or the constraint
      it breaks. An update is accepted exactly when every field the body
      gives is valid; given fields replace the stored ones (the title
      trimmed, enumerations parsed) and absent fields keep their values. */
  function Updated(it: Item, patch: ItemInput): (r: Result<Item, ValidationError>)
    requires ValidItem(it)
    ensures r.Ok? <==> UpdateAdmissible(patch)
    ensures r.Ok? ==> ValidItem(r.value)
    ensures r.Ok? ==>
      && r.value.title == (if patch.title.Some? then Trim(patch.title.value) else it.title)
      && r.value.description == patch.description.GetOr(it.description)
      && r.value.category == (if patch.category.Some? then ParseCategory(patch.category.value).value else it.category)
      && r.value.price == patch.price.GetOr(it.price)
      && r.value.deposit == patch.deposit.GetOr(it.deposit)
      && r.value.image == patch.image.GetOr(it.image)
    ensures r.Ok? ==>
      && r.value.owner == patch.owner.GetOr(it.owner)
      && r.value.location == patch.location.GetOr(it.location)
      && r.value.available == patch.available.GetOr(it.available)
      && r.value.features == patch.features.GetOr(it.features)
      && r.value.condition == (if patch.condition.Some? then ParseCondition(patch.condition.value).value else it.condition)
      && r.value.terms == patch.terms.GetOr(it.terms)
    ensures patch == EmptyInput ==> r == Ok(it)
  {
    var d := Overlay(InputOf(it), patch);
    OverlayOfStored(it, patch);
    BuildItem(d)
  }

  /** A body laid over a stored item's own fields is admissible exactly
      when the body's given fields are valid, and each field of the result
      is the given one or the stored one. */
  lemma OverlayOfStored(it: Item, patch: ItemInput)
    requires ValidItem(it)
    ensures var d := Overlay(InputOf(it), patch);
      && d.title == Some(patch.title.GetOr(it.title))
      && d.description == Some(patch.description.GetOr(it.description))
      && d.category == Some(patch.category.GetOr(CategoryName(it.category)))
      && d.price == Some(patch.price.GetOr(it.price))
      && d.deposit == Some(patch.deposit.GetOr(it.deposit))
      && d.image == Some(patch.image.GetOr(it.image))
      && d.owner == Some(patch.owner.GetOr(it.owner))
      && d.location == Some(patch.location.GetOr(it.location))
      && d.available == Some(patch.available.GetOr(it.available))
      && d.features == Some(patch.features.GetOr(it.features))
      && d.condition == Some(patch.condition.GetOr(ConditionName(it.condition)))
      && d.terms == Some(patch.terms.GetOr(it.terms))
    ensures Admissible(Overlay(InputOf(it), patch)) <==> UpdateAdmissible(patch)
    ensures ParseCategory(CategoryName(it.category)) == Some(it.category)
    ensures ParseCondition(ConditionName(it.condition)) == Some(it.condition)
    ensures Trim(it.title) == it.title
  {
    EnumNamesRoundTrip(it.category, it.condition);
    var d := Overlay(InputOf(it), patch);
    assert InputOf(it) == ItemInput(
      Some(it.title), Some(it.description), Some(CategoryName(it.category)),
      Some(it.price), Some(it.deposit), Some(it.image), Some(it.owner),
      Some(it.location), Some(it.available), Some(it.features),
      Some(ConditionName(it.condition)), Some(it.terms));
  }
}
