/** `normalize_product` (server/utils.py): fills in defaults so that every
    product the front end receives has the same six keys. */
module Products {
  import opened PyValues

  /** A product as a loosely typed dictionary. */
  type Product = map<string, Value>

  /** The integer `random.randint(999, 9999)` draws for a default price, in cents. */
  type Cents = c: int | 999 <= c <= 9999 witness 999

  const NormalizedKeys: set<string> := {"id", "image_url", "name", "description", "price", "aisle"}

  /** `f"${cents/100:.2f}"`: dollars, a point, and exactly two cent digits. */
  function PriceText(cents: Cents): (r: string)
    ensures |r| >= 5 && r[0] == '$' && r[|r| - 3] == '.'
    ensures AllDigits(r[1..|r| - 3]) && r[1] != '0' && DigitsValue(r[1..|r| - 3]) == cents / 100
    ensures AllDigits(r[|r| - 2..]) && DigitsValue(r[|r| - 2..]) == cents % 100
  {
    var dollars := NatToString(cents / 100);
    var fraction := [DigitChar(cents % 100 / 10), DigitChar(cents % 100 % 10)];
    var r := "$" + dollars + "." + fraction;
    assert r[1..|r| - 3] == dollars && r[|r| - 2..] == fraction;
    TwoDigitsValue(cents % 100);
    r
  }

  /** Two digits, tens first, denote a number below 100. */
  lemma TwoDigitsValue(c: nat)
    requires c < 100
    ensures AllDigits([DigitChar(c / 10), DigitChar(c % 10)])
    ensures DigitsValue([DigitChar(c / 10), DigitChar(c % 10)]) == c
  {
    var f := [DigitChar(c / 10), DigitChar(c % 10)];
    assert f[..1] == [DigitChar(c / 10)] && f[..1][..0] == [];
    assert DigitsValue(f[..1]) == c / 10;
    assert DigitsValue(f) == 10 * (c / 10) + c % 10;
  }

  /** The id a product resolves to: `product.get('id') or product.get('productid', '')`. */
  function ResolvedId(product: Product): Value {
    Or(Get(product, "id", VNone), Get(product, "productid", VStr("")))
  }

  /** The id the default name is built from, looked up by key presence only:
      `product.get('id', product.get('productid', ''))`. */
  function NameId(product: Product): Value {
    Get(product, "id", Get(product, "productid", VStr("")))
  }

  function DefaultDescription(query: Value): string {
    "This product matches your " + (if Truthy(query) then Show(query) else "image") + " search"
  }

  /** `normalize_product(product, query)`; `cents` is the value the random
      draw for the default price produced. The result has exactly the six
      keys; its id is a truthy `id`, else whatever `productid` holds, else '';
      every other field the product carries is copied unchanged, and an
      absent one gets its default: an empty image url, "Product <id>" with
      the id found by key presence, the query-based description, the drawn
      price and the "Unknown" aisle. */
  function NormalizeProduct(product: Product, query: Value, cents: Cents): (r: Product)
    ensures r.Keys == NormalizedKeys
    ensures "id" in product && Truthy(product["id"]) ==> r["id"] == product["id"]
    ensures !("id" in product && Truthy(product["id"])) && "productid" in product ==> r["id"] == product["productid"]
    ensures !("id" in product && Truthy(product["id"])) && "productid" !in product ==> r["id"] == VStr("")
    ensures forall k :: k in NormalizedKeys - {"id"} && k in product ==> r[k] == product[k]
    ensures "image_url" !in product ==> r["image_url"] == VStr("")
    ensures "name" !in product ==>
              r["name"] == VStr("Product " + Show(
                if "id" in product then product["id"]
                else if "productid" in product then product["productid"]
                else VStr("")))
    ensures "description" !in product ==>
              r["description"] == VStr("This product matches your "
                + (if Truthy(query) then Show(query) else "image") + " search")
    ensures "price" !in product ==> r["price"] == VStr(PriceText(cents))
    ensures "aisle" !in product ==> r["aisle"] == VStr("Unknown")
  {
    map[
      "id" := ResolvedId(product),
      "image_url" := Get(product, "image_url", VStr("")),
      "name" := Get(product, "name", VStr("Product " + Show(NameId(product)))),
      "description" := Get(product, "description", VStr(DefaultDescription(query))),
      "price" := Get(product, "price", VStr(PriceText(cents))),
      "aisle" := Get(product, "aisle", VStr("Unknown"))
    ]
  }

  /** A present but empty id still names the product "Product ", because the
      name looks the id up by presence, while the id itself falls back to
      `productid`. */
  lemma EmptyIdNamesProductWithEmptySuffix(cents: Cents)
    ensures var r := NormalizeProduct(map["id" := VStr(""), "productid" := VStr("p7")], VNone, cents);
            r["name"] == VStr("Product ") && r["id"] == VStr("p7")
  {
  }

  predicate IdsAreStrings(product: Product) {
    && ("id" in product ==> product["id"].VStr?)
    && ("productid" in product ==> product["productid"].VStr?)
  }

  /** Normalising a normalised product changes nothing, whatever query and
      price draw the second call uses, provided the id keys hold strings. */
  lemma NormalizeIdempotent(product: Product, q1: Value, c1: Cents, q2: Value, c2: Cents)
    requires IdsAreStrings(product)
    ensures NormalizeProduct(NormalizeProduct(product, q1, c1), q2, c2) == NormalizeProduct(product, q1, c1)
  {
    var r := NormalizeProduct(product, q1, c1);
    var r2 := NormalizeProduct(r, q2, c2);
    assert r["id"] == VStr("") || Truthy(r["id"]);
    assert r2["id"] == r["id"];
    assert r2.Keys == r.Keys;
  }

  /** Without string ids idempotence fails: a `productid` of 0 resolves to 0,
      and the normalised product, which has no `productid`, then resolves
      to ''. */
  lemma NormalizeNotIdempotentForIntegerId(cents: Cents)
    ensures var p := map["productid" := VInt(0)];
            NormalizeProduct(NormalizeProduct(p, VNone, cents), VNone, cents) != NormalizeProduct(p, VNone, cents)
  {
    var p := map["productid" := VInt(0)];
    var r := NormalizeProduct(p, VNone, cents);
    assert r["id"] == VInt(0);
    assert NormalizeProduct(r, VNone, cents)["id"] == VStr("");
  }
}
