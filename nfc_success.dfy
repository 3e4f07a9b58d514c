/** The order success page (`/nfc/success`): which stored order the page shows and how it
    consumes a fresh confirmation, the defaults of the order it builds, the profile username
    and URL, whether the order is digital only, and the shipping country label. Local
    storage holds each item already parsed. */
module NfcSuccess {
  import opened Common

  /** `JSON.parse` of a stored item: the fields of an object; anything else has none. */
  function FieldsOf(v: Json): JsonObject {
    if v.JObj? then v.fields else map[]
  }

  /** The order built from a payment confirmation `c`: a generated order number that the
      confirmation's own one overrides, every field of the confirmation, and defaults for
      the card configuration, the shipping details and the pricing. */
  function BuildOrder(c: JsonObject, generated: string): (o: JsonObject)
    ensures "orderNumber" in o && "cardConfig" in o && "shipping" in o && "pricing" in o
    ensures o["orderNumber"] == (if "orderNumber" in c then c["orderNumber"] else JStr(generated))
    ensures OptTruthy(Get(c, "cardConfig")) ==> o["cardConfig"] == c["cardConfig"]
    ensures !OptTruthy(Get(c, "cardConfig")) ==>
      o["cardConfig"] == JObj(if "customerName" in c then map["fullName" := c["customerName"]] else map[])
    ensures OptTruthy(Get(c, "shipping")) ==> o["shipping"] == c["shipping"]
    ensures !OptTruthy(Get(c, "shipping")) ==> o["shipping"] == JObj(map[])
    ensures OptTruthy(Get(c, "pricing")) ==> o["pricing"] == c["pricing"]
    ensures !OptTruthy(Get(c, "pricing")) ==>
      o["pricing"] == JObj(if "amount" in c then map["total" := c["amount"]] else map[])
    // the confirmation's other fields are copied unchanged
    ensures forall k :: k in c && k !in {"cardConfig", "shipping", "pricing"} ==> k in o && o[k] == c[k]
    ensures forall k :: k in o ==> k in c || k in {"orderNumber", "cardConfig", "shipping", "pricing"}
  {
    var named := if "customerName" in c then map["fullName" := c["customerName"]] else map[];
    var total := if "amount" in c then map["total" := c["amount"]] else map[];
    (map["orderNumber" := JStr(generated)] + c)
      ["cardConfig" := Or(Get(c, "cardConfig"), Some(JObj(named))).value]
      ["shipping" := Or(Get(c, "shipping"), Some(JObj(map[]))).value]
      ["pricing" := Or(Get(c, "pricing"), Some(JObj(total))).value]
  }

  /** `'LFND' + random.toUpperCase()`, the random part being an input. */
  function GeneratedNumber(randomPart: string): (r: string)
    ensures |r| == 4 + |randomPart| && r[..4] == "LFND" && NoLower(r[4..])
  {
    var up := ToUpper(randomPart);
    assert ("LFND" + up)[4..] == up;
    "LFND" + up
  }

  predicate NoLower(s: string) {
    forall i :: 0 <= i < |s| ==> !IsLowerAscii(s[i])
  }

  // ---------------------------------------------------------------------------
  // Local storage and the load step

  /** What the page's load step decides, given the stored items. */
  datatype Loaded = Loaded(order: Option<Json>, items: map<string, Json>, navigateTo: Option<string>)

  function LoadFrom(items: map<string, Json>, randomPart: string): (l: Loaded)
    // a confirmation is consumed: its order is stored and the confirmation and the pending order removed
    ensures "orderConfirmation" in items ==>
      var built := JObj(BuildOrder(FieldsOf(items["orderConfirmation"]), GeneratedNumber(randomPart)));
      && l.order == Some(built)
      && l.items == (items - {"orderConfirmation", "pendingOrder"})["lastCompletedOrder" := built]
    ensures "orderConfirmation" !in items ==> l.items == items
    ensures "orderConfirmation" !in items && "lastCompletedOrder" in items ==> l.order == Some(items["lastCompletedOrder"])
    ensures "orderConfirmation" !in items && "lastCompletedOrder" !in items && "currentOrder" in items ==>
      l.order == Some(items["currentOrder"])
    // with no order at all the page goes home
    ensures l.order.None? <==> l.navigateTo == Some("/")
    ensures l.order.None? <==> "orderConfirmation" !in items && "lastCompletedOrder" !in items && "currentOrder" !in items
    ensures l.navigateTo.Some? ==> l.navigateTo == Some("/")
  {
    if "orderConfirmation" in items then
      var built := JObj(BuildOrder(FieldsOf(items["orderConfirmation"]), GeneratedNumber(randomPart)));
      Loaded(Some(built), (items - {"orderConfirmation", "pendingOrder"})["lastCompletedOrder" := built], None)
    else if "lastCompletedOrder" in items then Loaded(Some(items["lastCompletedOrder"]), items, None)
    else if "currentOrder" in items then Loaded(Some(items["currentOrder"]), items, None)
    else Loaded(None, items, Some("/"))
  }

  /** Reloading the page shows the same order, order number included, and changes nothing
      more, whatever the second random number is. */
  lemma ReloadShowsSameOrder(items: map<string, Json>, r1: string, r2: string)
    ensures var first := LoadFrom(items, r1);
      var second := LoadFrom(first.items, r2);
      second.order == first.order && second.items == first.items
  {
    var first := LoadFrom(items, r1);
    if "orderConfirmation" in items {
      assert "orderConfirmation" !in first.items;
      assert "lastCompletedOrder" in first.items;
    }
  }

  class BrowserStorage {
    var items: map<string, Json>

    constructor (initial: map<string, Json>)
      ensures items == initial
    {
      items := initial;
    }

    /** The page's load step, reading and updating local storage in place. */
    method LoadOrder(randomPart: string) returns (order: Option<Json>, navigateTo: Option<string>)
      modifies this
      ensures LoadFrom(old(items), randomPart) == Loaded(order, items, navigateTo)
    {
      navigateTo := None;
      if "orderConfirmation" in items {
        var confirmation := FieldsOf(items["orderConfirmation"]);
        var built := JObj(BuildOrder(confirmation, GeneratedNumber(randomPart)));
        order := Some(built);
        items := items["lastCompletedOrder" := built];
        items := items - {"orderConfirmation"};
        items := items - {"pendingOrder"};
        assert items == (old(items) - {"orderConfirmation", "pendingOrder"})["lastCompletedOrder" := built];
      } else if "lastCompletedOrder" in items {
        order := Some(items["lastCompletedOrder"]);
      } else if "currentOrder" in items {
        order := Some(items["currentOrder"]);
      } else {
        order := None;
        navigateTo := Some("/");
      }
    }
  }

  // ---------------------------------------------------------------------------
  // What the page shows for an order

  /** `order?.a?.b` read as a string; a value that is not a string counts as absent. */
  function StrAt(order: Json, a: string, b: string): (r: Option<string>)
    ensures r.Some? ==> GetPath(GetPath(Some(order), a), b) == Some(JStr(r.value))
    ensures var v := GetPath(GetPath(Some(order), a), b);
      v.Some? && v.value.JStr? ==> r == Some(v.value.s)
  {
    var v := GetPath(GetPath(Some(order), a), b);
    if v.Some? && v.value.JStr? then Some(v.value.s) else None
  }

  function UsernameFor(cardName: Option<string>, shippingName: Option<string>, email: Option<string>): (u: string)
    ensures StrTruthy(cardName) ==> u == NameSlug(cardName.value) && u != "" && NoSpace(u)
    ensures !StrTruthy(cardName) && StrTruthy(shippingName) ==> u == NameSlug(shippingName.value) && u != "" && NoSpace(u)
    ensures !StrTruthy(cardName) && !StrTruthy(shippingName) && StrTruthy(email) ==>
      u == TakeUntil(email.value, '@') && '@' !in u
    ensures !StrTruthy(cardName) && !StrTruthy(shippingName) && !StrTruthy(email) ==> u == "your-profile"
  {
    if StrTruthy(cardName) then NameSlug(cardName.value)
    else if StrTruthy(shippingName) then NameSlug(shippingName.value)
    else if StrTruthy(email) then TakeUntil(email.value, '@')
    else "your-profile"
  }

  /** The `let username` chain and the profile URL, `baseUrl` standing for `getBaseUrl()`. */
  method ProfileUrl(baseUrl: string, order: Json) returns (url: string)
    ensures url == baseUrl + "/" + UsernameFor(StrAt(order, "cardConfig", "fullName"),
                                              StrAt(order, "shipping", "fullName"),
                                              StrAt(order, "shipping", "email"))
  {
    var username := "your-profile";
    var cardName, shippingName, email :=
      StrAt(order, "cardConfig", "fullName"), StrAt(order, "shipping", "fullName"), StrAt(order, "shipping", "email");
    if StrTruthy(cardName) {
      username := NameSlug(cardName.value);
    } else if StrTruthy(shippingName) {
      username := NameSlug(shippingName.value);
    } else if StrTruthy(email) {
      username := Split(email.value, '@')[0];
      SplitHead(email.value, '@');
    }
    url := baseUrl + "/" + username;
  }

  /** A confirmation without a card configuration still names the profile after the customer. */
  lemma CustomerNameUsedForUrl(c: JsonObject, generated: string, name: string)
    requires !OptTruthy(Get(c, "cardConfig")) && Get(c, "customerName") == Some(JStr(name)) && name != ""
    ensures UsernameFor(StrAt(JObj(BuildOrder(c, generated)), "cardConfig", "fullName"),
                        StrAt(JObj(BuildOrder(c, generated)), "shipping", "fullName"),
                        StrAt(JObj(BuildOrder(c, generated)), "shipping", "email")) == NameSlug(name)
  {
    var o := BuildOrder(c, generated);
    assert o["cardConfig"] == JObj(map["fullName" := JStr(name)]);
    assert StrAt(JObj(o), "cardConfig", "fullName") == Some(name);
  }

  /** The order-details and shipping blocks are hidden exactly for digital-only orders. */
  function IsDigitalOnly(order: Json): (digital: bool)
    ensures OptTruthy(GetPath(Some(order), "isDigitalOnly")) ==> digital
    ensures OptTruthy(GetPath(Some(order), "isDigitalProduct")) ==> digital
    ensures GetPath(GetPath(Some(order), "cardConfig"), "baseMaterial") == Some(JStr("digital")) ==> digital
    // a stored value that is not an object has none of the three markers
    ensures digital ==> order.JObj? && ("isDigitalOnly" in order.fields || "isDigitalProduct" in order.fields || "cardConfig" in order.fields)
    ensures var markers := [OptTruthy(GetPath(Some(order), "isDigitalOnly")),
                            OptTruthy(GetPath(Some(order), "isDigitalProduct")),
                            GetPath(GetPath(Some(order), "cardConfig"), "baseMaterial") == Some(JStr("digital"))];
      digital <==> true in markers
  {
    || OptTruthy(GetPath(Some(order), "isDigitalOnly"))
    || OptTruthy(GetPath(Some(order), "isDigitalProduct"))
    || GetPath(GetPath(Some(order), "cardConfig"), "baseMaterial") == Some(JStr("digital"))
  }

  /** Building the order never changes whether it is digital only: the flags are copied and
      a default card configuration has no base material. */
  lemma BuildKeepsDigitalOnly(c: JsonObject, generated: string)
    ensures IsDigitalOnly(JObj(BuildOrder(c, generated))) == IsDigitalOnly(JObj(c))
  {
    var o := BuildOrder(c, generated);
    assert Get(o, "isDigitalOnly") == Get(c, "isDigitalOnly");
    assert Get(o, "isDigitalProduct") == Get(c, "isDigitalProduct");
    assert !OptTruthy(Get(c, "cardConfig")) ==> GetPath(Get(c, "cardConfig"), "baseMaterial") == None;
  }

  /** The shipping label: 'UAE' for the United Arab Emirates, the country itself otherwise,
      and 'AE' when there is none. */
  function CountryLabel(order: Json): (shown: Json)
    ensures Truthy(shown)
    ensures GetPath(GetPath(Some(order), "shipping"), "country") == Some(JStr("United Arab Emirates")) ==> shown == JStr("UAE")
    ensures !OptTruthy(GetPath(GetPath(Some(order), "shipping"), "country")) ==> shown == JStr("AE")
    ensures var c := GetPath(GetPath(Some(order), "shipping"), "country");
      OptTruthy(c) && c != Some(JStr("United Arab Emirates")) ==> shown == c.value
  {
    var country := GetPath(GetPath(Some(order), "shipping"), "country");
    if country == Some(JStr("United Arab Emirates")) then JStr("UAE")
    else Or(country, Some(JStr("AE"))).value
  }
}
