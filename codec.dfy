/** The gateway wire codec and field truncator of django_sagepay/utils.py:
    the basket encoder with its character sanitiser, the per-field length
    table and the truncator, the request transform that precedes
    percent-encoding, the CRLF `key=value` response decoder and the
    three-line acknowledgement encoder. */
module Codec {
  import opened Base
  import Utf8
  import opened Text

  // ---------------------------------------------------------------------------
  // Basket encoding
  // ---------------------------------------------------------------------------

  /** A character INVALID_CHARS matches: U+0000 to U+001F, U+007F to U+00FF
      (the pattern is a byte string, so `\x7f-\xff` stands for those code
      points), and the colon that delimits basket fields. */
  predicate IsInvalidChar(c: char)
  {
    c as int <= 0x1F || 0x7F <= c as int <= 0xFF || c == ':'
  }

  /** `INVALID_CHARS.sub(' ', s)`: every invalid character becomes a space,
      every other character stays where it is. */
  function Sanitize(s: string): (r: string)
    ensures |r| == |s|
    ensures forall i :: 0 <= i < |r| ==> !IsInvalidChar(r[i])
    ensures forall i :: 0 <= i < |s| && !IsInvalidChar(s[i]) ==> r[i] == s[i]
    ensures forall i :: 0 <= i < |s| && IsInvalidChar(s[i]) ==> r[i] == ' '
  {
    seq(|s|, i requires 0 <= i < |s| => if IsInvalidChar(s[i]) then ' ' else s[i])
  }

  /** The six item keys, in the order their values appear on the wire. */
  const ItemKeys: seq<string> :=
    ["description", "quantity", "unit_value_net", "unit_tax", "unit_value", "line_total"]

  /** The six sanitised fields of one item; a missing key gives ''. */
  function ItemFields(item: Item): (r: seq<string>)
    ensures |r| == 6
  {
    seq(6, j requires 0 <= j < 6 => Sanitize(GetOr(item, ItemKeys[j], "")))
  }

  function ItemsFields(items: seq<Item>): (r: seq<string>)
    ensures |r| == 6 * |items|
  {
    if items == [] then [] else ItemsFields(items[..|items| - 1]) + ItemFields(items[|items| - 1])
  }

  /** The fields `encode_basket` joins: the item count, then six per item. */
  function BasketFields(basket: seq<Item>): seq<string>
  {
    [NatToString(|basket|)] + ItemsFields(basket)
  }

  /** The wire form of a basket. */
  function BasketText(basket: seq<Item>): string
  {
    Join(BasketFields(basket), ":")
  }

  /** `encode_basket(basket)` */
  method EncodeBasket(basket: seq<Item>) returns (output: string)
    ensures output == BasketText(basket)
  {
    var fields := [NatToString(|basket|)];
    for i := 0 to |basket|
      invariant fields == [NatToString(|basket|)] + ItemsFields(basket[..i])
    {
      assert basket[..i + 1][..i] == basket[..i];
      fields := fields + ItemFields(basket[i]);
    }
    assert basket[..|basket|] == basket;
    output := Join(fields, ":");
  }

  lemma {:induction false} ItemsFieldAt(items: seq<Item>, i: nat, j: nat)
    requires i < |items| && j < 6
    ensures ItemsFields(items)[6 * i + j] == Sanitize(GetOr(items[i], ItemKeys[j], ""))
  {
    var init := items[..|items| - 1];
    if i < |items| - 1 {
      ItemsFieldAt(init, i, j);
      assert init[i] == items[i];
    }
  }

  /** Every basket, the empty one included, encodes as its item count
      followed by six fields per item; the empty basket is just "0". */
  lemma BasketHeader(basket: seq<Item>)
    ensures |BasketFields(basket)| == 1 + 6 * |basket|
    ensures BasketFields(basket)[0] == NatToString(|basket|)
    ensures basket == [] ==> BasketText(basket) == "0"
  {
  }

  /** The layout of an encoded basket: the item count, then for item `i` its
      six values in ItemKeys order at positions 1 + 6i .. 6 + 6i, each
      sanitised, a missing key giving ''. */
  lemma BasketLayout(basket: seq<Item>, i: nat, j: nat)
    requires i < |basket| && j < 6
    ensures |BasketFields(basket)| == 1 + 6 * |basket|
    ensures BasketFields(basket)[0] == NatToString(|basket|)
    ensures BasketFields(basket)[1 + 6 * i + j] == Sanitize(GetOr(basket[i], ItemKeys[j], ""))
  {
    ItemsFieldAt(basket, i, j);
  }

  /** No field of a basket holds a character INVALID_CHARS would match. */
  lemma BasketFieldsValid(basket: seq<Item>)
    ensures forall i, j :: 0 <= i < |BasketFields(basket)| && 0 <= j < |BasketFields(basket)[i]|
              ==> !IsInvalidChar(BasketFields(basket)[i][j])
  {
    var fs := BasketFields(basket);
    forall i, j | 0 <= i < |fs| && 0 <= j < |fs[i]| ensures !IsInvalidChar(fs[i][j]) {
      if i > 0 {
        var k := (i - 1) / 6;
        ItemsFieldAt(basket, k, (i - 1) % 6);
      }
    }
  }

  lemma BasketFieldsAvoid(basket: seq<Item>, chars: string)
    requires forall j :: 0 <= j < |chars| ==> IsInvalidChar(chars[j])
    ensures forall i :: 0 <= i < |BasketFields(basket)| ==> Avoids(BasketFields(basket)[i], chars)
  {
    BasketFieldsValid(basket);
  }

  /** Whatever the item values hold, an encoded basket has exactly 6N colons,
      and splitting it at the colons gives back the 1 + 6N fields. */
  lemma BasketDelimiters(basket: seq<Item>)
    ensures Count(BasketText(basket), ':') == 6 * |basket|
    ensures Split(BasketText(basket), ":") == BasketFields(basket)
  {
    BasketFieldsAvoid(basket, ":");
    CountJoin(BasketFields(basket), ':');
    SplitJoin(BasketFields(basket), ":");
  }

  /** An encoded basket holds no control character (so no line break) and
      nothing from U+007F to U+00FF; its only colons are delimiters. */
  lemma BasketHasNoControlCharacters(basket: seq<Item>)
    ensures forall j :: 0 <= j < |BasketText(basket)| ==>
              BasketText(basket)[j] == ':' || !IsInvalidChar(BasketText(basket)[j])
  {
    BasketFieldsValid(basket);
    JoinChars(BasketFields(basket), ":", c => c == ':' || !IsInvalidChar(c));
  }

  // ---------------------------------------------------------------------------
  // Field length limits
  // ---------------------------------------------------------------------------

  const BaseFieldLengths: seq<(string, nat)> := [("Description", 100), ("CustomerEMail", 255)]

  const BasketFieldLength: nat := 7500

  /** ADDRESS_FIELD_LENGTHS, with the trailing spaces of the source's keys. */
  const AddressFieldLengths: seq<(string, nat)> := [
    ("Surname", 20), ("Firstnames ", 20), ("Address1 ", 20), ("Address2 ", 20),
    ("City ", 40), ("Postcode ", 10), ("State ", 2), ("Country ", 2), ("Phone ", 20)]

  function Prefixed(prefix: string, table: seq<(string, nat)>): (r: seq<(string, nat)>)
    ensures |r| == |table|
    ensures forall i :: 0 <= i < |r| ==> r[i] == (prefix + table[i].0, table[i].1)
  {
    seq(|table|, i requires 0 <= i < |table| => (prefix + table[i].0, table[i].1))
  }

  /** FIELD_LENGTHS after the module-level loop has added the address fields
      once with the prefix 'Billing' and once with 'Delivery' (see
      FieldLengthsBuilt). */
  function FieldLengths(): seq<(string, nat)>
  {
    [("Description", 100), ("CustomerEMail", 255),
     ("BillingSurname", 20), ("BillingFirstnames ", 20), ("BillingAddress1 ", 20),
     ("BillingAddress2 ", 20), ("BillingCity ", 40), ("BillingPostcode ", 10),
     ("BillingState ", 2), ("BillingCountry ", 2), ("BillingPhone ", 20),
     ("DeliverySurname", 20), ("DeliveryFirstnames ", 20), ("DeliveryAddress1 ", 20),
     ("DeliveryAddress2 ", 20), ("DeliveryCity ", 40), ("DeliveryPostcode ", 10),
     ("DeliveryState ", 2), ("DeliveryCountry ", 2), ("DeliveryPhone ", 20)]
  }

  /** The table is what the loop `for prefix in ('Billing', 'Delivery')`
      builds: the base entries, then every address entry with its key
      prefixed, once per prefix. */
  lemma FieldLengthsBuilt()
    ensures FieldLengths() == BaseFieldLengths + Prefixed("Billing", AddressFieldLengths)
                                               + Prefixed("Delivery", AddressFieldLengths)
  {
    BillingEntries();
    DeliveryEntries();
    assert FieldLengths() == FieldLengths()[..2] + FieldLengths()[2..11] + FieldLengths()[11..];
  }

  lemma BillingEntries()
    ensures FieldLengths()[2..11] == Prefixed("Billing", AddressFieldLengths)
  {
    assert "Billing" + "Surname" == "BillingSurname";
    assert "Billing" + "Firstnames " == "BillingFirstnames ";
    assert "Billing" + "Address1 " == "BillingAddress1 ";
    assert "Billing" + "Address2 " == "BillingAddress2 ";
    assert "Billing" + "City " == "BillingCity ";
    assert "Billing" + "Postcode " == "BillingPostcode ";
    assert "Billing" + "State " == "BillingState ";
    assert "Billing" + "Country " == "BillingCountry ";
    assert "Billing" + "Phone " == "BillingPhone ";
  }

  lemma DeliveryEntries()
    ensures FieldLengths()[11..20] == Prefixed("Delivery", AddressFieldLengths)
  {
    assert "Delivery" + "Surname" == "DeliverySurname";
    assert "Delivery" + "Firstnames " == "DeliveryFirstnames ";
    assert "Delivery" + "Address1 " == "DeliveryAddress1 ";
    assert "Delivery" + "Address2 " == "DeliveryAddress2 ";
    assert "Delivery" + "City " == "DeliveryCity ";
    assert "Delivery" + "Postcode " == "DeliveryPostcode ";
    assert "Delivery" + "State " == "DeliveryState ";
    assert "Delivery" + "Country " == "DeliveryCountry ";
    assert "Delivery" + "Phone " == "DeliveryPhone ";
  }

  function IndexOf(table: seq<(string, nat)>, k: string): (i: nat)
    ensures i <= |table|
    ensures i < |table| ==> table[i].0 == k
    ensures forall j :: 0 <= j < i ==> table[j].0 != k
  {
    if table == [] then 0 else if table[0].0 == k then 0 else 1 + IndexOf(table[1..], k)
  }

  /** The limit a table of (key, bytes) pairs gives `k`: the first entry
      with that key, if any. */
  function LimitIn(table: seq<(string, nat)>, k: string): (r: Option<nat>)
    ensures r.None? <==> forall j :: 0 <= j < |table| ==> table[j].0 != k
  {
    var i := IndexOf(table, k);
    if i < |table| then Some(table[i].1) else None
  }

  /** The byte limit FIELD_LENGTHS gives `k`, if any. */
  function LimitOf(k: string): Option<nat>
  {
    LimitIn(FieldLengths(), k)
  }

  predicate DistinctKeys(t: seq<(string, nat)>)
  {
    forall i, j :: 0 <= i < j < |t| ==> t[i].0 != t[j].0
  }

  predicate DisjointKeys(t: seq<(string, nat)>, u: seq<(string, nat)>)
  {
    forall i, j :: 0 <= i < |t| && 0 <= j < |u| ==> t[i].0 != u[j].0
  }

  lemma AddressKeysDistinct()
    ensures DistinctKeys(AddressFieldLengths)
  {
    var a := AddressFieldLengths;
    forall i, j | 0 <= i < j < |a| ensures a[i].0 != a[j].0 {
      if |a[i].0| == |a[j].0| {
        assert a[i].0[|a[i].0| - 2] != a[j].0[|a[j].0| - 2] || a[i].0[0] != a[j].0[0];
      }
    }
  }

  lemma PrefixedDistinct(prefix: string, t: seq<(string, nat)>)
    requires DistinctKeys(t)
    ensures DistinctKeys(Prefixed(prefix, t))
  {
    var p := Prefixed(prefix, t);
    forall i, j | 0 <= i < j < |p| ensures p[i].0 != p[j].0 {
      assert t[i].0 == p[i].0[|prefix|..];
      assert t[j].0 == p[j].0[|prefix|..];
    }
  }

  lemma ConcatDistinct(t: seq<(string, nat)>, u: seq<(string, nat)>)
    requires DistinctKeys(t) && DistinctKeys(u) && DisjointKeys(t, u)
    ensures DistinctKeys(t + u)
  {
    var tu := t + u;
    forall i, j | 0 <= i < j < |tu| ensures tu[i].0 != tu[j].0 {
      if j < |t| {
      } else if i < |t| {
        assert tu[j] == u[j - |t|];
      } else {
        assert tu[i] == u[i - |t|] && tu[j] == u[j - |t|];
      }
    }
  }

  /** Keys that differ from `prefix` at position `at` never carry that prefix. */
  lemma PrefixSeparates(t: seq<(string, nat)>, prefix: string, u: seq<(string, nat)>, at: nat)
    requires at < |prefix|
    requires forall i :: 0 <= i < |t| ==> at < |t[i].0| && t[i].0[at] != prefix[at]
    ensures DisjointKeys(t, Prefixed(prefix, u))
  {
    var p := Prefixed(prefix, u);
    forall i, j | 0 <= i < |t| && 0 <= j < |p| ensures t[i].0 != p[j].0 {
      assert p[j].0[at] == prefix[at];
    }
  }

  /** No key appears twice in FIELD_LENGTHS. */
  lemma FieldKeysDistinct()
    ensures DistinctKeys(FieldLengths())
  {
    FieldLengthsBuilt();
    var a := AddressFieldLengths;
    AddressKeysDistinct();
    var b := Prefixed("Billing", a);
    var d := Prefixed("Delivery", a);
    PrefixedDistinct("Billing", a);
    PrefixedDistinct("Delivery", a);
    PrefixSeparates(BaseFieldLengths, "Billing", a, 0);
    PrefixSeparates(BaseFieldLengths, "Delivery", a, 2);
    PrefixSeparates(b, "Delivery", a, 0);
    ConcatDistinct(BaseFieldLengths, b);
    assert DisjointKeys(BaseFieldLengths + b, d);
    ConcatDistinct(BaseFieldLengths + b, d);
  }

  /** In a table without repeated keys each entry gives the limit of its
      own key. */
  lemma LimitInEntry(table: seq<(string, nat)>, j: nat)
    requires DistinctKeys(table) && j < |table|
    ensures IndexOf(table, table[j].0) == j
    ensures LimitIn(table, table[j].0) == Some(table[j].1)
  {
  }

  /** Each entry of FIELD_LENGTHS is the limit of its own key. */
  lemma LimitOfEntry(j: nat)
    requires j < |FieldLengths()|
    ensures LimitOf(FieldLengths()[j].0) == Some(FieldLengths()[j].1)
  {
    FieldKeysDistinct();
    LimitInEntry(FieldLengths(), j);
  }

  /** Every address key but the first ends in a space. */
  lemma AddressSpaces()
    ensures forall i | 0 <= i < |AddressFieldLengths| ::
      (' ' in AddressFieldLengths[i].0) <==> i != 0
  {
    var a := AddressFieldLengths;
    forall i | 0 < i < |a| ensures ' ' in a[i].0 {
      assert a[i].0[|a[i].0| - 1] == ' ';
    }
  }

  /** A prefix without spaces adds none. */
  lemma PrefixedSpaces(prefix: string, t: seq<(string, nat)>, i: nat)
    requires ' ' !in prefix && i < |t|
    ensures (' ' in Prefixed(prefix, t)[i].0) <==> ' ' in t[i].0
  {
    var k := Prefixed(prefix, t)[i].0;
    assert k == prefix + t[i].0;
    if ' ' in k {
      var j :| 0 <= j < |k| && k[j] == ' ';
      assert k[j] == t[i].0[j - |prefix|];
    }
    if ' ' in t[i].0 {
      var j :| 0 <= j < |t[i].0| && t[i].0[j] == ' ';
      assert k[j + |prefix|] == ' ';
    }
  }

  /** Only four keys of the table are free of spaces; every address key
      except the two surnames ends in a space. */
  lemma SpacedKeys()
    ensures var t := FieldLengths();
      forall i | 0 <= i < |t| :: (' ' in t[i].0) <==> i !in {0, 1, 2, 11}
  {
    FieldLengthsBuilt();
    var t := FieldLengths();
    var a := AddressFieldLengths;
    AddressSpaces();
    forall i | 0 <= i < |t| ensures (' ' in t[i].0) <==> i !in {0, 1, 2, 11} {
      if 2 <= i < 11 {
        PrefixedSpaces("Billing", a, i - 2);
        assert t[i] == Prefixed("Billing", a)[i - 2];
      } else if 11 <= i {
        PrefixedSpaces("Delivery", a, i - 11);
        assert t[i] == Prefixed("Delivery", a)[i - 11];
      }
    }
  }

  /** The trailing spaces in ADDRESS_FIELD_LENGTHS mean that no key without
      a space (such as the real 'BillingFirstnames' or 'DeliveryCity') has a
      limit, apart from Description, CustomerEMail and the two surnames. */
  lemma UnspacedKeysUnlimited(k: string)
    requires ' ' !in k
    requires k !in {"Description", "CustomerEMail", "BillingSurname", "DeliverySurname"}
    ensures LimitOf(k) == None
  {
    var t := FieldLengths();
    SpacedKeys();
    assert t[0].0 == "Description" && t[1].0 == "CustomerEMail";
    assert t[2].0 == "BillingSurname" && t[11].0 == "DeliverySurname";
  }

  /** The four limits that do take effect. */
  lemma EffectiveLimits()
    ensures LimitOf("Description") == Some(100) && LimitOf("CustomerEMail") == Some(255)
    ensures LimitOf("BillingSurname") == Some(20) && LimitOf("DeliverySurname") == Some(20)
  {
    var t := FieldLengths();
    LimitOfEntry(0);
    LimitOfEntry(1);
    LimitOfEntry(2);
    LimitOfEntry(11);
    assert t[2].0 == "BillingSurname" && t[11].0 == "DeliverySurname";
  }

  // ---------------------------------------------------------------------------
  // truncate_overlong_fields
  // ---------------------------------------------------------------------------

  /** The popped basket is put back: it is truthy and survives the 7500-byte
      truncation unchanged. */
  predicate KeepsBasket(data: map<string, Value>)
  {
    && "Basket" in data && Truthy(data["Basket"]) && data["Basket"].Text?
    && data["Basket"].text == Utf8.Truncate(data["Basket"].text, BasketFieldLength)
  }

  /** The basket step raises: a truthy basket that is not text has no `.encode`. */
  predicate BasketFails(data: map<string, Value>)
  {
    "Basket" in data && Truthy(data["Basket"]) && !data["Basket"].Text?
  }

  /** Some key the table limits holds a value that is not text. */
  predicate HasUnmeasurable(table: seq<(string, nat)>, d: map<string, Value>)
  {
    exists k :: k in d && LimitIn(table, k).Some? && !d[k].Text?
  }

  /** The dictionary once the basket has been popped and, if it fits, put back. */
  function BasketChecked(data: map<string, Value>): map<string, Value>
  {
    if KeepsBasket(data) then data else data - {"Basket"}
  }

  function LimitedValue(table: seq<(string, nat)>, k: string, v: Value): Value
    requires LimitIn(table, k).Some? ==> v.Text?
  {
    match LimitIn(table, k)
    case None => v
    case Some(n) => Text(Utf8.Truncate(v.text, n))
  }

  /** The loop over a table of limits: every limited key truncated to its
      limit, or an AttributeError when one of them is not text. */
  function LimitFields(table: seq<(string, nat)>, d: map<string, Value>): Result<map<string, Value>>
  {
    if HasUnmeasurable(table, d) then Err(AttributeError)
    else Ok(map k | k in d :: LimitedValue(table, k, d[k]))
  }

  /** The truncator run with a given table of limits. */
  function TruncatedWith(table: seq<(string, nat)>, data: map<string, Value>): Result<map<string, Value>>
  {
    if BasketFails(data) then Err(AttributeError) else LimitFields(table, BasketChecked(data))
  }

  /** What `truncate_overlong_fields(data)` returns, or the error it raises. */
  function Truncated(data: map<string, Value>): Result<map<string, Value>>
  {
    TruncatedWith(FieldLengths(), data)
  }

  /** The `for field, length in FIELD_LENGTHS` loop followed entry by entry:
      a present field is replaced by its truncation, an absent one skipped
      (the KeyError the loop catches), and a value that is not text stops
      the loop with an AttributeError (it has no `.encode`). */
  function ApplyLimits(table: seq<(string, nat)>, d: map<string, Value>): Result<map<string, Value>>
  {
    if table == [] then Ok(d)
    else
      var (field, length) := table[0];
      if field !in d then ApplyLimits(table[1..], d)
      else if !d[field].Text? then Err(AttributeError)
      else ApplyLimits(table[1..], d[field := Text(Utf8.Truncate(d[field].text, length))])
  }

  method LimitFieldsLoop(start: map<string, Value>, table: seq<(string, nat)>)
    returns (r: Result<map<string, Value>>)
    ensures r == ApplyLimits(table, start)
  {
    var d := start;
    var i := 0;
    while i < |table|
      invariant 0 <= i <= |table|
      invariant ApplyLimits(table[i..], d) == ApplyLimits(table, start)
    {
      var (field, length) := table[i];
      assert table[i..][1..] == table[i + 1..];
      if field in d {
        if !d[field].Text? {
          return Err(AttributeError);
        }
        d := d[field := Text(Utf8.Truncate(d[field].text, length))];
      }
      i := i + 1;
    }
    return Ok(d);
  }

  /** An entry for another key does not change the limit of `k`. */
  lemma LimitInTail(table: seq<(string, nat)>, k: string)
    requires table != [] && table[0].0 != k
    ensures LimitIn(table, k) == LimitIn(table[1..], k)
  {
  }

  /** What one entry of the table settles: the first field, once it holds
      its limited value, needs no further attention. */
  predicate FirstHandled(table: seq<(string, nat)>, d: map<string, Value>, d': map<string, Value>)
    requires table != []
  {
    && d'.Keys == d.Keys
    && (forall k :: k in d && k != table[0].0 ==> d'[k] == d[k])
    && (table[0].0 in d ==>
          d[table[0].0].Text? && d'[table[0].0] == Text(Utf8.Truncate(d[table[0].0].text, table[0].1)))
  }

  lemma UnmeasurableStep(table: seq<(string, nat)>, d: map<string, Value>, d': map<string, Value>)
    requires table != [] && DistinctKeys(table) && FirstHandled(table, d, d')
    ensures HasUnmeasurable(table[1..], d') <==> HasUnmeasurable(table, d)
  {
    var rest := table[1..];
    if HasUnmeasurable(table, d) {
      var k :| k in d && LimitIn(table, k).Some? && !d[k].Text?;
      LimitInTail(table, k);
      assert k in d' && LimitIn(rest, k).Some? && !d'[k].Text?;
    }
    if HasUnmeasurable(rest, d') {
      var k :| k in d' && LimitIn(rest, k).Some? && !d'[k].Text?;
      LimitInTail(table, k);
      assert k in d && LimitIn(table, k).Some? && !d[k].Text?;
    }
  }

  /** One entry handled: the rest of the table does what the whole table
      does. */
  lemma LimitFieldsStep(table: seq<(string, nat)>, d: map<string, Value>, d': map<string, Value>)
    requires table != [] && DistinctKeys(table) && FirstHandled(table, d, d')
    ensures LimitFields(table[1..], d') == LimitFields(table, d)
  {
    var rest := table[1..];
    UnmeasurableStep(table, d, d');
    if !HasUnmeasurable(table, d) {
      var a := LimitFields(rest, d').value;
      var b := LimitFields(table, d).value;
      forall k | k in a ensures a[k] == b[k] {
        if k != table[0].0 {
          LimitInTail(table, k);
        } else {
          assert LimitIn(rest, k).None?;
        }
      }
      assert a == b;
    }
  }

  /** Following the table entry by entry is the same as truncating every
      limited key to its limit at once, provided no key is listed twice. */
  lemma {:induction false} ApplyLimitsAll(table: seq<(string, nat)>, d: map<string, Value>)
    requires DistinctKeys(table)
    ensures ApplyLimits(table, d) == LimitFields(table, d)
    decreases |table|
  {
    if table == [] {
      assert !HasUnmeasurable(table, d);
      assert LimitFields(table, d).value == d;
    } else {
      var (field, length) := table[0];
      var rest := table[1..];
      assert DistinctKeys(rest);
      if field !in d {
        ApplyLimitsAll(rest, d);
        LimitFieldsStep(table, d, d);
      } else if !d[field].Text? {
        assert HasUnmeasurable(table, d);
      } else {
        var d' := d[field := Text(Utf8.Truncate(d[field].text, length))];
        ApplyLimitsAll(rest, d');
        LimitFieldsStep(table, d, d');
      }
    }
  }

  /** `truncate_overlong_fields(data)`: works on a copy, pops the basket and
      puts it back only when it fits, then truncates each limited field. */
  method TruncateOverlongFields(data: map<string, Value>) returns (r: Result<map<string, Value>>)
    ensures r == Truncated(data)
  {
    var d := data;
    var basket: Option<Value> := None;
    if "Basket" in d {
      basket := Some(d["Basket"]);
      d := d - {"Basket"};
    }
    if basket.Some? && Truthy(basket.value) {
      if !basket.value.Text? {
        return Err(AttributeError);
      }
      if basket.value.text == Utf8.Truncate(basket.value.text, BasketFieldLength) {
        d := d["Basket" := basket.value];
      }
    }
    assert d == BasketChecked(data);
    r := LimitFieldsLoop(d, FieldLengths());
    FieldKeysDistinct();
    ApplyLimitsAll(FieldLengths(), d);
  }

  /** Removing a key the table does not limit changes nothing about whether
      some limited value is not text. */
  lemma UnmeasurableWithout(table: seq<(string, nat)>, d: map<string, Value>, key: string)
    requires LimitIn(table, key).None?
    ensures HasUnmeasurable(table, d - {key}) <==> HasUnmeasurable(table, d)
  {
    if HasUnmeasurable(table, d) {
      var k :| k in d && LimitIn(table, k).Some? && !d[k].Text?;
      assert k in d - {key};
    }
  }

  /** Applying the limits to a dictionary they already hold changes nothing. */
  lemma LimitFieldsIdempotent(table: seq<(string, nat)>, d: map<string, Value>)
    requires LimitFields(table, d).Ok?
    ensures LimitFields(table, LimitFields(table, d).value) == LimitFields(table, d)
  {
    var out := LimitFields(table, d).value;
    assert !HasUnmeasurable(table, out) by {
      forall k | k in out && LimitIn(table, k).Some? ensures out[k].Text? {
      }
    }
    var again := LimitFields(table, out).value;
    forall k | k in out ensures again[k] == out[k] {
      if LimitIn(table, k).Some? {
        Utf8.TruncateIdempotent(d[k].text, LimitIn(table, k).value);
      }
    }
    assert again == out;
  }

  /** The basket key carries no limit of its own. */
  lemma BasketUnlimited()
    ensures LimitOf("Basket") == None
  {
    UnspacedKeysUnlimited("Basket");
  }

  lemma TruncatedWithFailure(table: seq<(string, nat)>, data: map<string, Value>)
    requires LimitIn(table, "Basket").None?
    ensures TruncatedWith(table, data).Err? <==> BasketFails(data) || HasUnmeasurable(table, data)
    ensures TruncatedWith(table, data).Err? ==> TruncatedWith(table, data).error == AttributeError
  {
    UnmeasurableWithout(table, data, "Basket");
  }

  /** The truncator fails exactly when it meets a non-text value it must
      measure, and the failure is an AttributeError. */
  lemma TruncatedFailure(data: map<string, Value>)
    ensures Truncated(data).Err? <==> BasketFails(data) || HasUnmeasurable(FieldLengths(), data)
    ensures Truncated(data).Err? ==> Truncated(data).error == AttributeError
  {
    BasketUnlimited();
    TruncatedWithFailure(FieldLengths(), data);
  }

  lemma TruncatedWithBasket(table: seq<(string, nat)>, data: map<string, Value>)
    requires LimitIn(table, "Basket").None? && TruncatedWith(table, data).Ok?
    ensures var out := TruncatedWith(table, data).value;
      && ("Basket" in out <==>
            "Basket" in data && data["Basket"].Text? && data["Basket"].text != []
            && Utf8.Length(data["Basket"].text) <= BasketFieldLength)
      && ("Basket" in out ==> out["Basket"] == data["Basket"])
  {
    if "Basket" in data && data["Basket"].Text? {
      Utf8.TruncateUnchangedIff(data["Basket"].text, BasketFieldLength);
    }
  }

  /** The basket is never partially truncated: it stays, unchanged, exactly
      when it is non-empty text of at most 7500 UTF-8 bytes, and is dropped
      otherwise. */
  lemma TruncatedBasket(data: map<string, Value>)
    requires Truncated(data).Ok?
    ensures var out := Truncated(data).value;
      && ("Basket" in out <==>
            "Basket" in data && data["Basket"].Text? && data["Basket"].text != []
            && Utf8.Length(data["Basket"].text) <= BasketFieldLength)
      && ("Basket" in out ==> out["Basket"] == data["Basket"])
  {
    BasketUnlimited();
    TruncatedWithBasket(FieldLengths(), data);
  }

  /** Every other key: a limited key that is present becomes its value
      truncated to its limit, an absent key stays absent, and the rest keep
      their values. */
  lemma TruncatedFields(data: map<string, Value>, k: string)
    requires Truncated(data).Ok? && k != "Basket"
    ensures var out := Truncated(data).value;
      && (k in out <==> k in data)
      && (k in data && LimitOf(k).Some? ==>
            data[k].Text? && out[k] == Text(Utf8.Truncate(data[k].text, LimitOf(k).value)))
      && (k in data && LimitOf(k).None? ==> out[k] == data[k])
  {
  }

  /** A basket that survived the basket step and a table that does not
      limit it survives the basket step again, unchanged. */
  lemma BasketCheckedStable(table: seq<(string, nat)>, data: map<string, Value>)
    requires LimitIn(table, "Basket").None?
    requires LimitFields(table, BasketChecked(data)).Ok?
    ensures var out := LimitFields(table, BasketChecked(data)).value;
      !BasketFails(out) && BasketChecked(out) == out
  {
    var out := LimitFields(table, BasketChecked(data)).value;
    if "Basket" in out {
      assert KeepsBasket(data) && out["Basket"] == data["Basket"];
      assert KeepsBasket(out);
    } else {
      assert out - {"Basket"} == out;
    }
  }

  /** VendorTxCode carries no limit, so the truncator passes it through. */
  lemma VendorTxCodeUntouched(data: map<string, Value>)
    requires Truncated(data).Ok? && "VendorTxCode" in data
    ensures "VendorTxCode" in Truncated(data).value
    ensures Truncated(data).value["VendorTxCode"] == data["VendorTxCode"]
  {
    UnspacedKeysUnlimited("VendorTxCode");
    TruncatedFields(data, "VendorTxCode");
  }

  /** Truncating a second time changes nothing: every limited field of the
      result already fits, and a basket that survived fits too. */
  lemma TruncatedIdempotent(data: map<string, Value>)
    requires Truncated(data).Ok?
    ensures Truncated(Truncated(data).value) == Truncated(data)
  {
    BasketUnlimited();
    BasketCheckedStable(FieldLengths(), data);
    LimitFieldsIdempotent(FieldLengths(), BasketChecked(data));
  }

  // ---------------------------------------------------------------------------
  // encode_transaction_request
  // ---------------------------------------------------------------------------

  /** The two library renderings the request transform relies on:
      `format_money_value` (two decimals) and `unicode(v)` of a non-text
      value. Neither is modelled; the model only routes values to them. */
  datatype Formats = Formats(money: real -> string, show: Value -> string)

  /** The text a value becomes on the wire. */
  function Render(v: Value, fmt: Formats): string
  {
    if v.Text? then v.text else fmt.show(v)
  }

  /** What `encode_transaction_request` hands to `urlencode`, or the error it
      raises: a missing Amount (KeyError), a non-numeric Amount (ValueError),
      a truthy basket that is text (AttributeError on `.get`) or a number
      (TypeError on `len`). */
  function EncodedRequest(data: map<string, Value>, fmt: Formats): (r: Result<map<string, string>>)
  {
    if "Amount" !in data then Err(KeyError("Amount"))
    else if !data["Amount"].Number? then Err(ValueError)
    else if "Basket" in data && Truthy(data["Basket"]) && data["Basket"].Text? then Err(AttributeError)
    else if "Basket" in data && Truthy(data["Basket"]) && data["Basket"].Number? then Err(TypeError)
    else
      Ok(map k | k in data && (k != "Basket" || Truthy(data["Basket"])) ::
           if k == "Amount" then fmt.money(data["Amount"].n)
           else if k == "Basket" then BasketText(data["Basket"].items)
           else Render(data[k], fmt))
  }

  /** `encode_transaction_request(data)` up to, not including, `urlencode`. */
  method EncodeTransactionRequest(data: map<string, Value>, fmt: Formats)
    returns (r: Result<map<string, string>>)
    ensures r == EncodedRequest(data, fmt)
  {
    var d := data;
    if "Amount" !in d {
      return Err(KeyError("Amount"));
    }
    if !d["Amount"].Number? {
      return Err(ValueError);
    }
    d := d["Amount" := Text(fmt.money(d["Amount"].n))];
    var basket: Option<Value> := None;
    if "Basket" in d {
      basket := Some(d["Basket"]);
      d := d - {"Basket"};
    }
    if basket.Some? && Truthy(basket.value) {
      match basket.value
      case Text(_) =>
        return Err(AttributeError);
      case Number(_) =>
        return Err(TypeError);
      case Items(items) =>
        var text := EncodeBasket(items);
        d := d["Basket" := Text(text)];
    }
    ghost var expected := EncodedRequest(data, fmt).value;
    assert d.Keys == expected.Keys;
    assert forall k :: k in d ==> Render(d[k], fmt) == expected[k];
    var out: map<string, string> := map[];
    var keys := d.Keys;
    while keys != {}
      invariant keys <= d.Keys
      invariant out.Keys == d.Keys - keys
      invariant forall k :: k in out ==> out[k] == expected[k]
      decreases keys
    {
      var k :| k in keys;
      out := out[k := Render(d[k], fmt)];
      keys := keys - {k};
    }
    assert out == expected;
    return Ok(out);
  }

  /** Every key the caller sent reaches the wire, except a falsy basket;
      Amount is money-formatted, a basket list is basket-encoded, text goes
      through untouched. */
  lemma EncodedRequestFields(data: map<string, Value>, fmt: Formats, k: string)
    requires EncodedRequest(data, fmt).Ok?
    ensures var out := EncodedRequest(data, fmt).value;
      && (k in out <==> k in data && (k != "Basket" || Truthy(data["Basket"])))
      && (k == "Amount" ==> data[k].Number? && out[k] == fmt.money(data[k].n))
      && (k == "Basket" && k in out ==> data[k].Items? && out[k] == BasketText(data[k].items))
      && (k in data && k != "Amount" && k != "Basket" && data[k].Text? ==> out[k] == data[k].text)
  {
  }

  // ---------------------------------------------------------------------------
  // decode_transaction_response
  // ---------------------------------------------------------------------------

  const CRLF: string := "\r\n"

  /** `dict(line.split('=', 1) for line in lines)`: each line is split at its
      first '=', the pairs are inserted left to right, and a line without
      '=' (a one-element split) is a ValueError. */
  function ParseLines(lines: seq<string>): Result<map<string, string>>
  {
    if lines == [] then Ok(map[])
    else
      match ParseLines(lines[..|lines| - 1])
      case Err(e) => Err(e)
      case Ok(m) =>
        match SplitFirst(lines[|lines| - 1], '=')
        case None => Err(ValueError)
        case Some(pair) => Ok(m[pair.0 := pair.1])
  }

  /** `decode_transaction_response(body)` */
  function DecodeTransactionResponse(body: string): Result<map<string, string>>
  {
    ParseLines(Split(Strip(body), CRLF))
  }

  /** Parsing fails exactly when some line has no '='. */
  lemma {:induction false} ParseLinesFails(lines: seq<string>)
    ensures ParseLines(lines).Err? <==> exists i :: 0 <= i < |lines| && '=' !in lines[i]
    ensures ParseLines(lines).Err? ==> ParseLines(lines).error == ValueError
  {
    if lines != [] {
      var init := lines[..|lines| - 1];
      ParseLinesFails(init);
      if exists i :: 0 <= i < |init| && '=' !in init[i] {
        var i :| 0 <= i < |init| && '=' !in init[i];
        assert lines[i] == init[i];
      }
      if exists i :: 0 <= i < |lines| && '=' !in lines[i] {
        var i :| 0 <= i < |lines| && '=' !in lines[i];
        if i < |init| {
          assert init[i] == lines[i];
        }
      }
    }
  }

  /** The key of a line: the text before its first '='. */
  function LineKey(line: string): string
    requires '=' in line
  {
    SplitFirst(line, '=').value.0
  }

  /** The value of a line: everything after its first '=', further '='
      included. */
  function LineValue(line: string): string
    requires '=' in line
  {
    SplitFirst(line, '=').value.1
  }

  /** A later line with the same key overwrites an earlier one: the decoded
      keys are the keys of the lines, and each maps to the value of the last
      line that carries it. */
  lemma {:induction false} ParseLinesLastWins(lines: seq<string>, i: nat)
    requires ParseLines(lines).Ok? && i < |lines|
    ensures forall j :: 0 <= j < |lines| ==> '=' in lines[j]
    ensures LineKey(lines[i]) in ParseLines(lines).value
    ensures (forall j :: i < j < |lines| ==> LineKey(lines[j]) != LineKey(lines[i])) ==>
              ParseLines(lines).value[LineKey(lines[i])] == LineValue(lines[i])
  {
    ParseLinesFails(lines);
    var init := lines[..|lines| - 1];
    if i < |lines| - 1 {
      ParseLinesLastWins(init, i);
      assert init[i] == lines[i];
      if forall j :: i < j < |lines| ==> LineKey(lines[j]) != LineKey(lines[i]) {
        assert forall j :: i < j < |init| ==> init[j] == lines[j];
      }
    }
  }

  /** Every decoded key comes from some line. */
  lemma {:induction false} ParseLinesKeys(lines: seq<string>, k: string)
    requires ParseLines(lines).Ok? && k in ParseLines(lines).value
    ensures exists i :: 0 <= i < |lines| && '=' in lines[i] && LineKey(lines[i]) == k
  {
    var init := lines[..|lines| - 1];
    var last := lines[|lines| - 1];
    if LineKey(last) != k {
      ParseLinesKeys(init, k);
      var i :| 0 <= i < |init| && '=' in init[i] && LineKey(init[i]) == k;
      assert lines[i] == init[i];
    }
  }

  /** An empty or all-whitespace body is malformed. */
  lemma DecodeEmptyBody(body: string)
    requires forall i :: 0 <= i < |body| ==> IsSpace(body[i])
    ensures DecodeTransactionResponse(body) == Err(ValueError)
  {
    assert Strip(body) == [];
    assert Split([], CRLF) == [[]];
    var lines: seq<string> := [[]];
    assert lines[..0] == [];
    assert ParseLines(lines) == Err(ValueError);
  }

  // ---------------------------------------------------------------------------
  // encode_notification_acknowledgement
  // ---------------------------------------------------------------------------

  /** The three keys of an acknowledgement, in wire order. */
  const AckKeys: seq<string> := ["Status", "RedirectURL", "StatusDetail"]

  function AckLine(data: map<string, string>, key: string): string
  {
    key + "=" + GetOr(data, key, "")
  }

  function AckLines(data: map<string, string>): seq<string>
  {
    seq(3, i requires 0 <= i < 3 => AckLine(data, AckKeys[i]))
  }

  /** The acknowledgement body for a response dictionary. */
  function Acknowledgement(data: map<string, string>): string
  {
    Join(AckLines(data), CRLF)
  }

  /** `encode_notification_acknowledgement(data)` */
  method EncodeNotificationAcknowledgement(data: map<string, string>) returns (body: string)
    ensures body == Acknowledgement(data)
  {
    var response: seq<string> := [];
    for i := 0 to |AckKeys|
      invariant response == AckLines(data)[..i]
    {
      var key := AckKeys[i];
      response := response + [key + "=" + GetOr(data, key, "")];
      assert AckLines(data)[..i + 1] == AckLines(data)[..i] + [AckLine(data, key)];
    }
    assert response == AckLines(data);
    body := Join(response, CRLF);
  }

  /** No line break inside a value. */
  predicate SingleLine(s: string)
  {
    '\r' !in s && '\n' !in s
  }

  /** The values the acknowledgement writes, a missing one being '', hold
      no line break; other keys of the dictionary are not read. */
  predicate AckValuesSingleLine(data: map<string, string>)
  {
    && SingleLine(GetOr(data, "Status", ""))
    && SingleLine(GetOr(data, "RedirectURL", ""))
    && SingleLine(GetOr(data, "StatusDetail", ""))
  }

  /** A line of the acknowledgement holds no CR or LF when its value is a
      single line. */
  lemma AckLineAvoids(data: map<string, string>, key: string)
    requires SingleLine(GetOr(data, key, ""))
    requires SingleLine(key)
    ensures Avoids(AckLine(data, key), CRLF)
  {
    var v := GetOr(data, key, "");
    var line := AckLine(data, key);
    forall j | 0 <= j < |line| ensures line[j] !in CRLF {
      if j > |key| {
        assert line[j] == v[j - |key| - 1];
      } else if j < |key| {
        assert line[j] == key[j];
      }
    }
  }

  /** The body written out: the three lines joined by CRLF. */
  lemma AcknowledgementText(data: map<string, string>)
    ensures Acknowledgement(data) ==
      "Status=" + GetOr(data, "Status", "") + CRLF
      + "RedirectURL=" + GetOr(data, "RedirectURL", "") + CRLF
      + "StatusDetail=" + GetOr(data, "StatusDetail", "")
  {
    var lines := AckLines(data);
    assert lines[0] == "Status=" + GetOr(data, "Status", "");
    assert lines[1] == "RedirectURL=" + GetOr(data, "RedirectURL", "");
    assert lines[2] == "StatusDetail=" + GetOr(data, "StatusDetail", "");
    assert lines == [lines[0], lines[1], lines[2]];
    Join3(lines[0], lines[1], lines[2], CRLF);
  }

  /** With single-line values the body is exactly three CRLF-separated lines,
      `Status=..`, `RedirectURL=..`, `StatusDetail=..`, missing keys giving ''. */
  lemma AcknowledgementLines(data: map<string, string>)
    requires AckValuesSingleLine(data)
    ensures Split(Acknowledgement(data), CRLF) == [
      "Status=" + GetOr(data, "Status", ""),
      "RedirectURL=" + GetOr(data, "RedirectURL", ""),
      "StatusDetail=" + GetOr(data, "StatusDetail", "")]
  {
    var lines := AckLines(data);
    forall i | 0 <= i < |lines| ensures Avoids(lines[i], CRLF) {
      AckLineAvoids(data, AckKeys[i]);
    }
    SplitJoin(lines, CRLF);
    assert lines[0] == "Status=" + GetOr(data, "Status", "");
    assert lines[1] == "RedirectURL=" + GetOr(data, "RedirectURL", "");
    assert lines[2] == "StatusDetail=" + GetOr(data, "StatusDetail", "");
  }

  /** A further `key=value` line adds or overwrites that key. */
  lemma ParseLinesSnoc(lines: seq<string>, key: string, value: string)
    requires ParseLines(lines).Ok? && '=' !in key
    ensures ParseLines(lines + [key + "=" + value]) == Ok(ParseLines(lines).value[key := value])
  {
    var all := lines + [key + "=" + value];
    assert all[..|all| - 1] == lines;
    SplitFirstOf(key, '=', value);
  }

  /** The three lines parse to the three fields. */
  lemma ParseAckLines(s: string, u: string, d: string)
    ensures ParseLines(["Status=" + s, "RedirectURL=" + u, "StatusDetail=" + d]) ==
      Ok(map["Status" := s, "RedirectURL" := u, "StatusDetail" := d])
  {
    var empty: seq<string> := [];
    ParseLinesSnoc(empty, "Status", s);
    ParseLinesSnoc(empty + ["Status" + "=" + s], "RedirectURL", u);
    ParseLinesSnoc(empty + ["Status" + "=" + s] + ["RedirectURL" + "=" + u], "StatusDetail", d);
    assert "Status" + "=" + s == "Status=" + s;
    assert "RedirectURL" + "=" + u == "RedirectURL=" + u;
    assert "StatusDetail" + "=" + d == "StatusDetail=" + d;
    assert empty + ["Status" + "=" + s] + ["RedirectURL" + "=" + u] + ["StatusDetail" + "=" + d]
        == ["Status=" + s, "RedirectURL=" + u, "StatusDetail=" + d];
  }

  /** Decoding an acknowledgement gives back its three fields, provided the
      values are single lines and StatusDetail does not end in whitespace
      (which `strip()` would remove). */
  lemma AcknowledgementRoundTrip(data: map<string, string>)
    requires AckValuesSingleLine(data)
    requires var d := GetOr(data, "StatusDetail", ""); d == [] || !IsSpace(d[|d| - 1])
    ensures DecodeTransactionResponse(Acknowledgement(data)) == Ok(map[
      "Status" := GetOr(data, "Status", ""),
      "RedirectURL" := GetOr(data, "RedirectURL", ""),
      "StatusDetail" := GetOr(data, "StatusDetail", "")])
  {
    var body := Acknowledgement(data);
    var d := GetOr(data, "StatusDetail", "");
    AcknowledgementText(data);
    assert body[0] == 'S';
    assert body[|body| - 1] == if d == [] then '=' else d[|d| - 1];
    StripUnchanged(body);
    AcknowledgementLines(data);
    ParseAckLines(GetOr(data, "Status", ""), GetOr(data, "RedirectURL", ""), d);
  }
}
