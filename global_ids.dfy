/**
 * Shopify global ids of the form `gid://shopify/<Type>/<legacy id>`, built by
 * string interpolation of a numeric legacy id, and the parse back that shows
 * the construction loses nothing.
 */
module GlobalIds {
  import opened Wrappers

  const InventoryItemPrefix: string := "gid://shopify/InventoryItem/"
  const LocationPrefix: string := "gid://shopify/Location/"

  predicate IsDigit(c: char) { '0' <= c <= '9' }

  predicate AllDigits(s: string) { forall i :: 0 <= i < |s| ==> IsDigit(s[i]) }

  function DigitValue(c: char): nat
    requires IsDigit(c)
  {
    c as int - '0' as int
  }

  function DigitChar(d: nat): (c: char)
    requires d < 10
    ensures IsDigit(c) && DigitValue(c) == d
  {
    ('0' as int + d) as char
  }

  /** Decimal notation of a non-negative integer, most significant digit first. */
  function Decimal(n: nat): (s: string)
    ensures |s| > 0 && AllDigits(s)
    ensures s[0] == '0' ==> n == 0 && s == "0"
    decreases n
  {
    if n < 10 then [DigitChar(n)] else Decimal(n / 10) + [DigitChar(n % 10)]
  }

  /** The number a string of decimal digits denotes. */
  function ValueOf(s: string): nat
    requires AllDigits(s)
    decreases |s|
  {
    if s == [] then 0 else ValueOf(s[..|s| - 1]) * 10 + DigitValue(s[|s| - 1])
  }

  /** How a template literal renders an integral number: an optional minus sign, then its digits. */
  function IntToString(n: int): (s: string)
    ensures |s| > 0 && (s[0] == '-' <==> n < 0)
    ensures AllDigits(if n < 0 then s[1..] else s) && (if n < 0 then |s| > 1 else true)
  {
    if n < 0 then "-" + Decimal(-n) else Decimal(n)
  }

  /** Reads back an optional minus sign followed by at least one decimal digit. */
  function ParseInt(s: string): Option<int>
  {
    if |s| > 1 && s[0] == '-' && AllDigits(s[1..]) then Some(0 - ValueOf(s[1..]) as int)
    else if |s| > 0 && AllDigits(s) then Some(ValueOf(s))
    else None
  }

  /** The global id of the given resource type for a legacy numeric id. */
  function Gid(prefix: string, legacyId: int): (g: string)
    ensures |prefix| < |g| && g[..|prefix|] == prefix
  {
    prefix + IntToString(legacyId)
  }

  /** `gid://shopify/InventoryItem/${legacyId}` */
  function InventoryItemGid(legacyId: int): (g: string)
    ensures |InventoryItemPrefix| < |g| && g[..|InventoryItemPrefix|] == InventoryItemPrefix
    ensures LegacyId(InventoryItemPrefix, g) == Some(legacyId)
  {
    GidRoundTrip(InventoryItemPrefix, legacyId);
    Gid(InventoryItemPrefix, legacyId)
  }

  /** `gid://shopify/Location/${legacyId}` */
  function LocationGid(legacyId: int): (g: string)
    ensures |LocationPrefix| < |g| && g[..|LocationPrefix|] == LocationPrefix
    ensures LegacyId(LocationPrefix, g) == Some(legacyId)
  {
    GidRoundTrip(LocationPrefix, legacyId);
    Gid(LocationPrefix, legacyId)
  }

  /** The legacy id a global id of the given type carries, if it has that form. */
  function LegacyId(prefix: string, g: string): Option<int>
  {
    if |prefix| <= |g| && g[..|prefix|] == prefix then ParseInt(g[|prefix|..]) else None
  }

  lemma {:induction false} ValueOfDecimal(n: nat)
    ensures ValueOf(Decimal(n)) == n
    decreases n
  {
    if n >= 10 {
      var s := Decimal(n);
      assert s[..|s| - 1] == Decimal(n / 10);
      ValueOfDecimal(n / 10);
    }
  }

  lemma ParseIntToString(n: int)
    ensures ParseInt(IntToString(n)) == Some(n)
  {
    if n < 0 {
      var s := IntToString(n);
      assert s[1..] == Decimal(-n);
      ValueOfDecimal(-n);
    } else {
      ValueOfDecimal(n);
    }
  }

  /** Reading the legacy id back out of a global id gives the id it was built from. */
  lemma GidRoundTrip(prefix: string, legacyId: int)
    ensures LegacyId(prefix, Gid(prefix, legacyId)) == Some(legacyId)
  {
    var g := Gid(prefix, legacyId);
    assert g[|prefix|..] == IntToString(legacyId);
    ParseIntToString(legacyId);
  }

  /** Distinct legacy ids give distinct global ids of the same type. */
  lemma GidInjective(prefix: string, a: int, b: int)
    requires Gid(prefix, a) == Gid(prefix, b)
    ensures a == b
  {
    GidRoundTrip(prefix, a);
    GidRoundTrip(prefix, b);
  }
}
