/** The seller product route: `POST` checks the seller, validates the
    submitted form, uploads the images and builds the product record;
    `GET` lists the seller's own products. The seller's store id (the
    result of `authSeller`) and the image upload are inputs. */
module ProductRoute {
  import opened Js
  import opened Entities

  // ---------------------------------------------------------------------
  // Form values and `Number(...)`
  // ---------------------------------------------------------------------

  /** A multipart form entry: a text field or an uploaded file. */
  datatype FormValue = Text(text: string) | File(fileName: string)

  /** The submitted form: each field name with its entries in order. */
  type Form = map<string, seq<FormValue>>

  /** `formData.get(name)`: the first entry of the field, or null. */
  function Get(form: Form, name: string): (r: Option<FormValue>)
    ensures r.Some? <==> name in form && |form[name]| > 0
    ensures r.Some? ==> r.value == form[name][0]
  {
    if name in form && |form[name]| > 0 then Some(form[name][0]) else None
  }

  /** `formData.getAll(name)`: every entry of the field, in order. */
  function GetAll(form: Form, name: string): seq<FormValue> {
    if name in form then form[name] else []
  }

  /** `!value` on a form entry: null and "" are falsy, a file is truthy. */
  predicate TruthyValue(v: Option<FormValue>) {
    v.Some? && (v.value.File? || v.value.text != "")
  }

  /** A JavaScript number as far as the route distinguishes them. */
  datatype JsNumber = Num(value: real) | Infinite(negative: bool) | NaN

  /** `!n` on a number: zero and NaN are falsy. */
  predicate TruthyNumber(n: JsNumber) {
    n.Infinite? || (n.Num? && n.value != 0.0)
  }

  /** The characters `Number` strips from both ends (white space and line
      terminators). */
  predicate IsJsSpace(c: char) {
    || c == '\t' || c == '\n' || c == '\U{B}' || c == '\U{C}' || c == '\r' || c == ' '
    || c == '\U{A0}' || c == '\U{1680}' || ('\U{2000}' <= c <= '\U{200A}') || c == '\U{2028}' || c == '\U{2029}'
    || c == '\U{202F}' || c == '\U{205F}' || c == '\U{3000}' || c == '\U{FEFF}'
  }

  /** Every character of `s` is white space. */
  predicate AllSpace(s: string) {
    forall i :: 0 <= i < |s| ==> IsJsSpace(s[i])
  }

  /** `s` without its leading white space. */
  function TrimStart(s: string): (r: string)
    ensures |r| <= |s|
    ensures r == [] || !IsJsSpace(r[0])
  {
    if s != [] && IsJsSpace(s[0]) then TrimStart(s[1..]) else s
  }

  /** `s` without its trailing white space. */
  function TrimEnd(s: string): (r: string)
    ensures |r| <= |s|
    ensures r == [] || !IsJsSpace(r[|r| - 1])
  {
    if s != [] && IsJsSpace(s[|s| - 1]) then TrimEnd(s[..|s| - 1]) else s
  }

  /** `TrimStart` keeps a suffix of the string and drops only white space
      before it. */
  lemma {:induction false} TrimStartDropsOnlySpace(s: string)
    ensures var r := TrimStart(s); r == s[|s| - |r|..] && AllSpace(s[..|s| - |r|])
  {
    if s != [] && IsJsSpace(s[0]) {
      TrimStartDropsOnlySpace(s[1..]);
      var r := TrimStart(s[1..]);
      assert s[1..][|s| - 1 - |r|..] == s[|s| - |r|..];
      assert s[..|s| - |r|] == [s[0]] + s[1..][..|s| - 1 - |r|];
    }
  }

  /** `TrimEnd` keeps a prefix of the string and drops only white space
      after it. */
  lemma {:induction false} TrimEndDropsOnlySpace(s: string)
    ensures var r := TrimEnd(s); r == s[..|r|] && AllSpace(s[|r|..])
  {
    if s != [] && IsJsSpace(s[|s| - 1]) {
      TrimEndDropsOnlySpace(s[..|s| - 1]);
      var r := TrimEnd(s[..|s| - 1]);
      assert s[..|s| - 1][..|r|] == s[..|r|];
      assert forall i :: 0 <= i < |s| - 1 - |r| ==> s[|r|..][i] == s[..|s| - 1][|r|..][i];
    }
  }

  predicate IsDigit(c: char) {
    '0' <= c <= '9'
  }

  predicate AllDigits(s: string) {
    forall i :: 0 <= i < |s| ==> IsDigit(s[i])
  }

  /** The value of a string of decimal digits. */
  function DigitsValue(s: string): int {
    if s == [] then 0 else DigitsValue(s[..|s| - 1]) * 10 + (s[|s| - 1] as int - '0' as int)
  }

  function Pow10(n: nat): (r: nat)
    ensures r >= 1
  {
    if n == 0 then 1 else 10 * Pow10(n - 1)
  }

  /** An unsigned decimal literal: digits, optionally a point and more
      digits, with a digit on at least one side of the point. */
  function UnsignedDecimal(s: string): Option<real> {
    var parts := Split(s, '.');
    if |parts| == 1 then
      if s != "" && AllDigits(s) then Some(DigitsValue(s) as real) else None
    else if |parts| == 2 then
      var whole, frac := parts[0], parts[1];
      if AllDigits(whole) && AllDigits(frac) && (whole != "" || frac != "") then
        Some(DigitsValue(whole) as real + DigitsValue(frac) as real / Pow10(|frac|) as real)
      else None
    else None
  }

  /** An unsigned literal: a decimal or `Infinity`. */
  function Unsigned(s: string, negative: bool): JsNumber {
    if s == "Infinity" then Infinite(negative)
    else
      match UnsignedDecimal(s)
      case Some(v) => Num(if negative then -v else v)
      case None => NaN
  }

  /** `Number(s)` on a string: surrounded white space is ignored, an empty
      string is 0, and an optional sign may precede the literal. */
  function StringToNumber(s: string): JsNumber {
    var t := TrimEnd(TrimStart(s));
    if t == "" then Num(0.0)
    else if t[0] == '-' then Unsigned(t[1..], true)
    else if t[0] == '+' then Unsigned(t[1..], false)
    else Unsigned(t, false)
  }

  /** `Number(formData.get(name))`: null is 0, a file is NaN. */
  function ToNumber(v: Option<FormValue>): JsNumber {
    match v
    case None => Num(0.0)
    case Some(File(_)) => NaN
    case Some(Text(s)) => StringToNumber(s)
  }

  // ---------------------------------------------------------------------
  // POST and GET
  // ---------------------------------------------------------------------

  /** The data handed to `prisma.product.create`. */
  datatype NewProduct = NewProduct(
    name: string,
    description: string,
    mrp: real,
    price: real,
    category: string,
    images: seq<string>,
    storeId: string)

  datatype Response =
    | NotAuthorized
    | MissingDetails
    /** An exception caught by the handler: a text entry where a file is
        read, a file or an infinite number where the record needs a
        string or a finite number. */
    | Failed
    | ProductAdded(product: NewProduct)
    | ProductList(products: seq<Product>)

  function Status(r: Response): int {
    match r
    case NotAuthorized => 401
    case MissingDetails => 400
    case Failed => 400
    case _ => 200
  }

  /** The handler goes on only when name, description, mrp, price and
      category are all truthy and there is at least one image. */
  predicate DetailsPresent(form: Form) {
    && TruthyValue(Get(form, "name"))
    && TruthyValue(Get(form, "description"))
    && TruthyNumber(ToNumber(Get(form, "mrp")))
    && TruthyNumber(ToNumber(Get(form, "price")))
    && TruthyValue(Get(form, "category"))
    && |GetAll(form, "images")| >= 1
  }

  predicate IsText(v: Option<FormValue>) {
    v.Some? && v.value.Text?
  }

  /** `POST /api/product`. `storeId` is what `authSeller` gives back;
      `upload` stands for the upload and URL transformation of one file. */
  function PostProduct(storeId: Option<string>, form: Form, upload: string -> string): Response {
    if !Truthy(storeId) then NotAuthorized
    else if !DetailsPresent(form) then MissingDetails
    else
      var images := GetAll(form, "images");
      var name, description, category := Get(form, "name"), Get(form, "description"), Get(form, "category");
      var mrp, price := ToNumber(Get(form, "mrp")), ToNumber(Get(form, "price"));
      if !(forall i :: 0 <= i < |images| ==> images[i].File?) then Failed
      else if !(IsText(name) && IsText(description) && IsText(category) && mrp.Num? && price.Num?) then Failed
      else
        var urls := seq(|images|, i requires 0 <= i < |images| => upload(images[i].fileName));
        ProductAdded(NewProduct(name.value.text, description.value.text, mrp.value, price.value,
                                category.value.text, urls, storeId.value))
  }

  /** The products of store `storeId`, in table order. */
  function ProductsOf(products: seq<Product>, storeId: string): seq<Product> {
    if products == [] then []
    else
      var last := products[|products| - 1];
      ProductsOf(products[..|products| - 1], storeId) + (if last.storeId == storeId then [last] else [])
  }

  /** `GET /api/product`. */
  function ListProducts(storeId: Option<string>, products: seq<Product>): Response {
    if !Truthy(storeId) then NotAuthorized else ProductList(ProductsOf(products, storeId.value))
  }

  // ---------------------------------------------------------------------
  // Properties
  // ---------------------------------------------------------------------

  /** Without a seller store nothing is read or built: the answer is 401
      whatever the form holds, for both handlers. */
  lemma NoStoreNoAccess(storeId: Option<string>, form: Form, upload: string -> string, products: seq<Product>)
    requires !Truthy(storeId)
    ensures PostProduct(storeId, form, upload) == NotAuthorized && Status(NotAuthorized) == 401
    ensures ListProducts(storeId, products) == NotAuthorized
  {
  }

  /** A seller's form is refused with "Missing product details" exactly when
      a required field is falsy or there is no image. */
  lemma MissingDetailsExactly(storeId: string, form: Form, upload: string -> string)
    requires storeId != ""
    ensures PostProduct(Some(storeId), form, upload) == MissingDetails <==> !DetailsPresent(form)
  {
  }

  /** A product is built exactly when the fields are text, the prices finite
      numbers and the images files; it carries the seller's store, the
      parsed prices and one uploaded URL per image, in order. */
  lemma AddedProductRecord(storeId: string, form: Form, upload: string -> string)
    requires storeId != "" && DetailsPresent(form)
    ensures var r := PostProduct(Some(storeId), form, upload);
      var images := GetAll(form, "images");
      && (r.ProductAdded? <==>
            && (forall i :: 0 <= i < |images| ==> images[i].File?)
            && IsText(Get(form, "name")) && IsText(Get(form, "description")) && IsText(Get(form, "category"))
            && ToNumber(Get(form, "mrp")).Num? && ToNumber(Get(form, "price")).Num?)
      && (r.ProductAdded? ==>
            && r.product.storeId == storeId
            && r.product.name == Get(form, "name").value.text
            && r.product.description == Get(form, "description").value.text
            && r.product.category == Get(form, "category").value.text
            && Num(r.product.price) == ToNumber(Get(form, "price"))
            && Num(r.product.mrp) == ToNumber(Get(form, "mrp"))
            && r.product.price != 0.0 && r.product.mrp != 0.0
            && |r.product.images| == |images|
            && (forall i :: 0 <= i < |images| ==> r.product.images[i] == upload(images[i].fileName)))
      && (!r.ProductAdded? ==> r == Failed)
  {
  }

  /** A price of zero, an empty or blank price and an unparsable price all
      count as missing. */
  lemma ZeroOrUnparsablePriceIsMissing(form: Form, price: string)
    requires "price" in form && |form["price"]| > 0 && form["price"][0] == Text(price)
    requires TrimEnd(TrimStart(price)) == "" || StringToNumber(price) == Num(0.0) || StringToNumber(price) == NaN
    ensures !DetailsPresent(form)
  {
  }

  /** A required field that is missing or empty counts as missing. */
  lemma NoImageIsMissing(form: Form)
    requires "images" !in form || form["images"] == []
    ensures !DetailsPresent(form)
  {
  }

  /** The digits of a number, most significant first. */
  function DecimalText(n: nat): (r: string)
    ensures AllDigits(r) && r != ""
  {
    if n < 10 then [('0' as int + n) as char]
    else DecimalText(n / 10) + [('0' as int + n % 10) as char]
  }

  lemma {:induction false} DecimalTextValue(n: nat)
    ensures DigitsValue(DecimalText(n)) == n
  {
    if n >= 10 {
      DecimalTextValue(n / 10);
      var t := DecimalText(n);
      assert t[..|t| - 1] == DecimalText(n / 10);
    }
  }

  /** A digit string is read as its value, with the sign given. */
  lemma UnsignedOfDigits(t: string, negative: bool)
    requires AllDigits(t) && t != ""
    ensures Unsigned(t, negative) == Num(if negative then -(DigitsValue(t) as real) else DigitsValue(t) as real)
  {
    SplitNoSeparator(t, '.');
    assert IsDigit(t[0]);
  }

  /** A string with no white space at either end is left as it is. */
  lemma TrimUnpadded(t: string)
    requires t != [] && !IsJsSpace(t[0]) && !IsJsSpace(t[|t| - 1])
    ensures TrimEnd(TrimStart(t)) == t
  {
    assert TrimStart(t) == t;
  }

  /** The padding " -" ... " " is trimmed down to the minus sign. */
  lemma TrimPadded(t: string)
    requires AllDigits(t) && t != ""
    ensures TrimEnd(TrimStart(" -" + t + " ")) == "-" + t
  {
    var padded := " -" + t + " ";
    assert padded[1..] == "-" + t + " ";
    assert TrimStart(padded) == "-" + t + " ";
    var u := "-" + t + " ";
    assert u[..|u| - 1] == "-" + t;
    assert !IsJsSpace(("-" + t)[|"-" + t| - 1]);
  }

  /** `Number` reads a digit string as its value */
  lemma NumberOfDigits(t: string)
    requires AllDigits(t) && t != ""
    ensures StringToNumber(t) == Num(DigitsValue(t) as real)
  {
    UnsignedOfDigits(t, false);
    assert IsDigit(t[0]) && IsDigit(t[|t| - 1]);
    TrimUnpadded(t);
    assert t[0] != '-' && t[0] != '+';
    assert StringToNumber(t) == Unsigned(t, false);
  }

  /** ... and with a minus sign and surrounding spaces as its negation. */
  lemma NumberOfPaddedNegative(t: string)
    requires AllDigits(t) && t != ""
    ensures StringToNumber(" -" + t + " ") == Num(-(DigitsValue(t) as real))
  {
    UnsignedOfDigits(t, true);
    TrimPadded(t);
    var u := "-" + t;
    assert u[0] == '-' && u[1..] == t;
  }

  /** `Number` reads back the decimal text of every whole number, with or
      without a minus sign and surrounding spaces. */
  lemma NumberOfDecimalText(n: nat)
    ensures StringToNumber(DecimalText(n)) == Num(n as real)
    ensures StringToNumber(" -" + DecimalText(n) + " ") == Num(-(n as real))
  {
    var t := DecimalText(n);
    DecimalTextValue(n);
    assert StringToNumber(t) == Num(n as real) by { NumberOfDigits(t); }
    assert StringToNumber(" -" + t + " ") == Num(-(n as real)) by { NumberOfPaddedNegative(t); }
  }

  /** The check only asks for a non-zero price: a negative price passes it
      and is stored as it is. */
  lemma NegativePriceAccepted(form: Form, n: nat)
    requires n > 0
    requires && TruthyValue(Get(form, "name")) && TruthyValue(Get(form, "description"))
             && TruthyNumber(ToNumber(Get(form, "mrp"))) && TruthyValue(Get(form, "category"))
             && |GetAll(form, "images")| >= 1
    requires "price" in form && |form["price"]| > 0 && form["price"][0] == Text(" -" + DecimalText(n) + " ")
    ensures DetailsPresent(form) && ToNumber(Get(form, "price")) == Num(-(n as real))
  {
    NumberOfDecimalText(n);
  }

  /** `GET` gives exactly the products of the seller's store, each kept in
      table order. */
  lemma {:induction false} ListedExactly(products: seq<Product>, storeId: string)
    ensures forall p :: p in ProductsOf(products, storeId) <==> p in products && p.storeId == storeId
    ensures |ProductsOf(products, storeId)| <= |products|
  {
    if products != [] {
      ListedExactly(products[..|products| - 1], storeId);
      assert products == products[..|products| - 1] + [products[|products| - 1]];
    }
  }
}
