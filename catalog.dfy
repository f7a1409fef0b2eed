/**
 * The product catalog as the lookups see it: a sequence of rows in table order, queried by
 * exact equality on the `plu` and `barcode` columns, each query answering with its first
 * matching row (`db.get`). Also the field fallbacks every label generator applies.
 */
module Catalog {
  import opened Base
  import opened Js

  /**
   * A `products` row or a `barcodesheet.json` record. Text columns hold text or nothing; the
   * price column may hold a number.
   */
  datatype Product = Product(
    plu: Text, barcode: Text, productName: Text, nama: Text,
    gambar: Text, imageUrl: Text, price: Value)

  /** The database: it either answers queries or rejects them (not opened, or an SQL error). */
  datatype Store = Available(rows: seq<Product>) | Failing

  /** The table's constraint `plu TEXT UNIQUE NOT NULL`. */
  predicate UniquePlu(rows: seq<Product>) {
    && (forall i :: 0 <= i < |rows| ==> rows[i].plu.Str?)
    && (forall i, j :: 0 <= i < j < |rows| ==> rows[i].plu != rows[j].plu)
  }

  datatype Column = PluColumn | BarcodeColumn

  /** `WHERE plu = ?`, `WHERE barcode = ?` or `WHERE plu = ? OR barcode = ?` with a text parameter. */
  predicate Matches(p: Product, cols: set<Column>, key: string) {
    (PluColumn in cols && p.plu == Str(key)) || (BarcodeColumn in cols && p.barcode == Str(key))
  }

  /** The position of the first row in table order that satisfies the condition. */
  function FirstMatch(rows: seq<Product>, cols: set<Column>, key: string): (r: Option<nat>)
    ensures r.Some? ==> r.value < |rows| && Matches(rows[r.value], cols, key)
    ensures r.Some? ==> forall j :: 0 <= j < r.value ==> !Matches(rows[j], cols, key)
    ensures r.None? ==> forall j :: 0 <= j < |rows| ==> !Matches(rows[j], cols, key)
    decreases |rows|
  {
    if rows == [] then None
    else if Matches(rows[0], cols, key) then Some(0)
    else
      match FirstMatch(rows[1..], cols, key)
      case None => None
      case Some(i) => Some(i + 1)
  }

  /** `db.get(sql, [key])`: the first matching row, or no row. */
  function Query(rows: seq<Product>, cols: set<Column>, key: string): Option<Product> {
    match FirstMatch(rows, cols, key)
    case Some(i) => Some(rows[i])
    case None => None
  }

  /**
   * The lookup of bot.js and lib/core.js on a trimmed key: PLU first, then barcode, then, only
   * when the key's digits are non-empty and differ from the key, one query matching either
   * column against the digits.
   */
  function Resolve(rows: seq<Product>, key: string): Option<Product> {
    var byPlu := Query(rows, {PluColumn}, key);
    if byPlu.Some? then byPlu
    else
      var byBarcode := Query(rows, {BarcodeColumn}, key);
      if byBarcode.Some? then byBarcode
      else
        var digits := DigitsOnly(key);
        if digits != [] && digits != key then Query(rows, {PluColumn, BarcodeColumn}, digits)
        else None
  }

  /** A PLU match always wins, and under the unique-PLU constraint it is that product. */
  lemma ResolveByPlu(rows: seq<Product>, key: string, i: nat)
    requires UniquePlu(rows)
    requires i < |rows| && rows[i].plu == Str(key)
    ensures Resolve(rows, key) == Some(rows[i])
  {
    var m := FirstMatch(rows, {PluColumn}, key);
    assert Matches(rows[i], {PluColumn}, key);
    assert m.Some?;
    assert rows[m.value].plu == rows[i].plu;
  }

  /** Without a PLU match, a barcode match wins, and it is the first row with that barcode. */
  lemma ResolveByBarcode(rows: seq<Product>, key: string, i: nat)
    requires forall j :: 0 <= j < |rows| ==> rows[j].plu != Str(key)
    requires i < |rows| && rows[i].barcode == Str(key)
    requires forall j :: 0 <= j < i ==> rows[j].barcode != Str(key)
    ensures Resolve(rows, key) == Some(rows[i])
  {
    assert Matches(rows[i], {BarcodeColumn}, key);
    var m := FirstMatch(rows, {BarcodeColumn}, key);
    assert m.Some?;
  }

  /** What the lookup returns is a catalog row that matches the key or, failing that, its digits. */
  lemma ResolveSound(rows: seq<Product>, key: string)
    requires Resolve(rows, key).Some?
    ensures Resolve(rows, key).value in rows
    ensures var p := Resolve(rows, key).value;
            var digits := DigitsOnly(key);
            || p.plu == Str(key) || p.barcode == Str(key)
            || (digits != [] && digits != key && (p.plu == Str(digits) || p.barcode == Str(digits)))
  {
  }

  /**
   * The lookup finds nothing exactly when no row carries the key in either column and the
   * digit retry is skipped or finds no row either.
   */
  lemma ResolveNoneIff(rows: seq<Product>, key: string)
    ensures var digits := DigitsOnly(key);
            Resolve(rows, key).None? <==>
              && (forall j :: 0 <= j < |rows| ==> rows[j].plu != Str(key) && rows[j].barcode != Str(key))
              && (digits == [] || digits == key
                  || forall j :: 0 <= j < |rows| ==> rows[j].plu != Str(digits) && rows[j].barcode != Str(digits))
  {
    var digits := DigitsOnly(key);
    var both := {PluColumn, BarcodeColumn};
    if Resolve(rows, key).None? {
      forall j | 0 <= j < |rows|
        ensures rows[j].plu != Str(key) && rows[j].barcode != Str(key)
      {
        assert !Matches(rows[j], {PluColumn}, key);
        assert !Matches(rows[j], {BarcodeColumn}, key);
      }
      if digits != [] && digits != key {
        forall j | 0 <= j < |rows|
          ensures rows[j].plu != Str(digits) && rows[j].barcode != Str(digits)
        {
          assert !Matches(rows[j], both, digits);
        }
      }
    } else {
      var m := FirstMatch(rows, {PluColumn}, key);
      var b := FirstMatch(rows, {BarcodeColumn}, key);
      if m.Some? {
        assert rows[m.value].plu == Str(key);
      } else if b.Some? {
        assert rows[b.value].barcode == Str(key);
      } else {
        var d := FirstMatch(rows, both, digits);
        assert Matches(rows[d.value], both, digits);
      }
    }
  }

  /** Every row that matches `key` on either column is the same record. */
  predicate Unambiguous(rows: seq<Product>, key: string) {
    forall i, j ::
      (0 <= i < |rows| && 0 <= j < |rows|
       && Matches(rows[i], {PluColumn, BarcodeColumn}, key)
       && Matches(rows[j], {PluColumn, BarcodeColumn}, key)) ==> rows[i] == rows[j]
  }

  /**
   * A formatted query (`8992-702-000018`) finds the same product as its digits
   * (`8992702000018`) when nothing matches the formatted text itself and the rows carrying the
   * digits are one record.
   */
  lemma DigitRetryAgrees(rows: seq<Product>, key: string)
    requires forall j :: 0 <= j < |rows| ==> rows[j].plu != Str(key) && rows[j].barcode != Str(key)
    requires DigitsOnly(key) != [] && DigitsOnly(key) != key
    requires Unambiguous(rows, DigitsOnly(key))
    ensures Resolve(rows, key) == Resolve(rows, DigitsOnly(key))
  {
    var d := DigitsOnly(key);
    var both := {PluColumn, BarcodeColumn};
    assert Query(rows, {PluColumn}, key).None?;
    assert Query(rows, {BarcodeColumn}, key).None?;
    var e := FirstMatch(rows, both, d);
    var p := FirstMatch(rows, {PluColumn}, d);
    var b := FirstMatch(rows, {BarcodeColumn}, d);
    assert p.Some? ==> Matches(rows[p.value], both, d);
    assert b.Some? ==> Matches(rows[b.value], both, d);
    assert e.Some? ==> Matches(rows[e.value], {PluColumn}, d) || Matches(rows[e.value], {BarcodeColumn}, d);
  }

  /**
   * Without that condition the retry can disagree: it takes the first row in table order
   * matching either column, where a direct lookup of the digits prefers a PLU match.
   */
  lemma DigitRetryCanDisagree()
    ensures var a := Product(Str("7"), Str("12"), Undefined, Str("A"), Undefined, Undefined, Undefined);
            var b := Product(Str("12"), Undefined, Undefined, Str("B"), Undefined, Undefined, Undefined);
            && UniquePlu([a, b])
            && DigitsOnly("1-2") == "12"
            && Resolve([a, b], "1-2") == Some(a)
            && Resolve([a, b], "12") == Some(b)
  {
    var a := Product(Str("7"), Str("12"), Undefined, Str("A"), Undefined, Undefined, Undefined);
    var b := Product(Str("12"), Undefined, Undefined, Str("B"), Undefined, Undefined, Undefined);
    var rows := [a, b];
    assert DigitsOnly("1-2") == "12" by {
      assert IsDigit('1') && !IsDigit('-') && IsDigit('2');
    }
    assert rows[1..] == [b];
    assert FirstMatch(rows, {PluColumn}, "1-2") == None;
    assert FirstMatch(rows, {BarcodeColumn}, "1-2") == None;
    assert FirstMatch(rows, {PluColumn, BarcodeColumn}, "12") == Some(0);
    assert FirstMatch(rows, {PluColumn}, "12") == Some(1);
  }

  /**
   * The lookup of bot-db-old.js on the raw query, untrimmed: PLU, then barcode, with no digit
   * retry; a rejected query gives no product.
   */
  function ResolveRaw(store: Store, query: string): (r: Option<Product>)
    ensures store.Failing? ==> r.None?
    ensures r.Some? ==> r.value in store.rows && (r.value.plu == Str(query) || r.value.barcode == Str(query))
    ensures store.Available? && r.None? ==>
              forall j :: 0 <= j < |store.rows| ==>
                store.rows[j].plu != Str(query) && store.rows[j].barcode != Str(query)
  {
    match store
    case Failing => None
    case Available(rows) =>
      var byPlu := Query(rows, {PluColumn}, query);
      if byPlu.Some? then byPlu else Query(rows, {BarcodeColumn}, query)
  }

  // ---------------------------------------------------------------------------
  // Field fallbacks of the label generators

  /** `product.productName || product.nama || 'Nama Tidak Tersedia'` */
  function DisplayName(p: Product): (r: string)
    ensures r != []
    ensures Truthy(p.productName) ==> r == p.productName.s
    ensures !Truthy(p.productName) && Truthy(p.nama) ==> r == p.nama.s
    ensures !Truthy(p.productName) && !Truthy(p.nama) ==> r == "Nama Tidak Tersedia"
  {
    OrText(Or(p.productName, p.nama), "Nama Tidak Tersedia")
  }

  /** `product.nama || 'Nama Tidak Tersedia'`: the name of the scripts reading the sheet. */
  function SheetName(p: Product): (r: string)
    ensures r != []
    ensures Truthy(p.nama) ==> r == p.nama.s
  {
    OrText(p.nama, "Nama Tidak Tersedia")
  }

  /** `product.gambar || ''`: the photo URL of bot.js and of the scripts reading the sheet. */
  function GambarUrl(p: Product): (r: string)
    ensures Truthy(p.gambar) ==> r == p.gambar.s
    ensures !Truthy(p.gambar) ==> r == []
  {
    OrText(p.gambar, "")
  }

  /** `product.price || '-'` */
  function PriceOrDash(p: Product): (r: Value)
    ensures Truthy(r)
  {
    Or(p.price, Str("-"))
  }

  /** `price && price !== '-' ? price : 'Rp 0,-'` applied to `product.price || '-'`. */
  function ShownPrice(p: Product): Value {
    var price := PriceOrDash(p);
    if Truthy(price) && price != Str("-") then price else Str("Rp 0,-")
  }

  /**
   * The label shows "Rp 0,-" exactly when the product has no price, a zero price, the price
   * "-" or literally "Rp 0,-"; every other price is shown as stored.
   */
  lemma ShownPriceCases(p: Product)
    ensures ShownPrice(p) == Str("Rp 0,-") <==>
              !Truthy(p.price) || p.price == Str("-") || p.price == Str("Rp 0,-")
    ensures ShownPrice(p) != Str("Rp 0,-") ==> ShownPrice(p) == p.price
  {
  }
}
