/**
 * The store configuration of js/config.js: loaded once (or replaced by a
 * fixed fallback when loading fails), then read for the admin WhatsApp
 * number and updated in place by the order-number counter.
 *
 * The fetch is a parameter: the configuration it produced, or None when it
 * failed. `Math.floor(Math.random() * 1000)` is the parameter `draw`.
 */
module Config {
  import opened Wrappers
  import opened Text
  import CartStore

  /** The contents of the configuration file; `shippingFee` in minor units. */
  datatype SystemConfig = SystemConfig(
    adminWhatsapp: string,
    lastOrderNumber: int,
    storeName: string,
    currency: string,
    shippingFee: int)

  const FallbackAdmin: string := "1234567890"

  /** The configuration used when the file cannot be loaded (a shipping fee of 10 currency units). */
  const Fallback: SystemConfig := SystemConfig(FallbackAdmin, 1000, "Elegance", "LKR", 10 * CartStore.MinorUnits)

  /** `loadSystemConfig()`: what was fetched, or the fallback. */
  function LoadSystemConfig(fetched: Option<SystemConfig>): (c: SystemConfig)
    ensures fetched.Some? ==> c == fetched.value
    ensures fetched.None? ==> (c.adminWhatsapp == "1234567890" && c.lastOrderNumber == 1000 &&
      c.storeName == "Elegance" && c.currency == "LKR" && c.shippingFee == 1000)
  {
    fetched.GetOr(Fallback)
  }

  const OrderPrefix: string := "ORD-"
  const ErrorPrefix: string := "ERR-"

  /** `'ORD-' + n`. */
  function OrderId(n: int): string {
    OrderPrefix + IntToString(n)
  }

  /** `'ERR-' + draw`. */
  function ErrorId(draw: int): string {
    ErrorPrefix + IntToString(draw)
  }

  /** Different counter values give different order ids. */
  lemma OrderIdInjective(a: int, b: int)
    requires OrderId(a) == OrderId(b)
    ensures a == b
  {
    assert OrderId(a)[|OrderPrefix|..] == IntToString(a);
    assert OrderId(b)[|OrderPrefix|..] == IntToString(b);
    IntToStringInjective(a, b);
  }

  /** An error id never looks like an order id. */
  lemma ErrorIdIsNotOrderId(draw: int, n: int)
    ensures ErrorId(draw) != OrderId(n)
  {
    assert ErrorId(draw)[1] == 'R' && OrderId(n)[1] == 'R';
    assert ErrorId(draw)[0] == 'E' && OrderId(n)[0] == 'O';
  }

  /** The ids `k` successive calls hand out after the counter stood at `last`. */
  function IssuedIds(last: int, k: nat): (ids: seq<string>)
    ensures |ids| == k
    decreases k
  {
    if k == 0 then [] else IssuedIds(last, k - 1) + [OrderId(last + k)]
  }

  lemma {:induction false} IssuedIdAt(last: int, k: nat, i: nat)
    requires i < k
    ensures IssuedIds(last, k)[i] == OrderId(last + i + 1)
    decreases k
  {
    if i < k - 1 {
      IssuedIdAt(last, k - 1, i);
    }
  }

  /** Successive calls never hand out the same id twice. */
  lemma IssuedIdsDistinct(last: int, k: nat)
    ensures forall i, j :: 0 <= i < j < k ==> IssuedIds(last, k)[i] != IssuedIds(last, k)[j]
  {
    forall i, j | 0 <= i < j < k ensures IssuedIds(last, k)[i] != IssuedIds(last, k)[j] {
      IssuedIdAt(last, k, i);
      IssuedIdAt(last, k, j);
      if IssuedIds(last, k)[i] == IssuedIds(last, k)[j] {
        OrderIdInjective(last + i + 1, last + j + 1);
      }
    }
  }

  const UrlBase: string := "https://wa.me/"
  const TextParam: string := "?text="

  /** `https://wa.me/${number}?text=${encoded}`. */
  function WhatsAppUrl(number: string, encoded: string): string {
    UrlBase + number + TextParam + encoded
  }

  /** The position of the first `c` in `s`, or -1. */
  function IndexOf(s: string, c: char): (i: int)
    ensures -1 <= i < |s|
    ensures i == -1 <==> c !in s
    ensures i >= 0 ==> s[i] == c && c !in s[..i]
    decreases |s|
  {
    if s == [] then -1
    else if s[0] == c then 0
    else
      var i := IndexOf(s[1..], c);
      if i == -1 then -1
      else
        assert s[..i + 1] == [s[0]] + s[1..][..i];
        i + 1
  }

  /** Reads the number and the encoded text back out of an order URL. */
  function UrlParts(url: string): Option<(string, string)> {
    if |url| < |UrlBase| || url[..|UrlBase|] != UrlBase then None
    else
      var rest := url[|UrlBase|..];
      var q := IndexOf(rest, '?');
      if q < 0 || |rest| - q < |TextParam| || rest[q..q + |TextParam|] != TextParam then None
      else Some((rest[..q], rest[q + |TextParam|..]))
  }

  /** A number without '?' is read back from the URL, and so is the encoded text. */
  lemma UrlRoundTrip(number: string, encoded: string)
    requires '?' !in number
    ensures UrlParts(WhatsAppUrl(number, encoded)) == Some((number, encoded))
  {
    var url := WhatsAppUrl(number, encoded);
    assert url[..|UrlBase|] == UrlBase;
    var rest := url[|UrlBase|..];
    assert rest == number + TextParam + encoded;
    assert rest[|number|] == '?';
    assert rest[..|number|] == number;
    assert '?' in rest;
    var q := IndexOf(rest, '?');
    assert q == |number|;
    assert rest[q..q + |TextParam|] == TextParam;
    assert rest[q + |TextParam|..] == encoded;
  }

  class ConfigStore {
    /** `systemConfig`: None until initialised. */
    var systemConfig: Option<SystemConfig>

    constructor ()
      ensures systemConfig == None
    {
      systemConfig := None;
    }

    /** `initSystemConfig()`. */
    method InitSystemConfig(fetched: Option<SystemConfig>)
      modifies this
      ensures systemConfig == Some(LoadSystemConfig(fetched))
    {
      systemConfig := Some(LoadSystemConfig(fetched));
    }

    /**
     * `getNextOrderNumber()`: uninitialised, an "ERR-" id from the draw and
     * no change; otherwise the counter goes up by one and names the order.
     */
    method GetNextOrderNumber(draw: int) returns (id: string)
      requires 0 <= draw < 1000
      modifies this
      ensures old(systemConfig).None? ==> systemConfig == old(systemConfig) && id == ErrorId(draw)
      ensures old(systemConfig).Some? ==>
        systemConfig == Some(old(systemConfig).value.(lastOrderNumber := old(systemConfig).value.lastOrderNumber + 1)) &&
        id == OrderId(systemConfig.value.lastOrderNumber)
    {
      if systemConfig.None? {
        return ErrorPrefix + IntToString(draw);
      }
      var config := systemConfig.value;
      systemConfig := Some(config.(lastOrderNumber := config.lastOrderNumber + 1));
      id := OrderPrefix + IntToString(systemConfig.value.lastOrderNumber);
    }

    /**
     * `k` successive `getNextOrderNumber()` calls on an initialised
     * configuration: the counter rises by `k`, the rest of the
     * configuration is kept, and the ids handed out are `IssuedIds`, so no
     * two of them are equal.
     */
    method IssueOrderNumbers(k: nat, draw: int) returns (ids: seq<string>)
      requires systemConfig.Some? && 0 <= draw < 1000
      modifies this
      ensures systemConfig == Some(old(systemConfig).value.(lastOrderNumber := old(systemConfig).value.lastOrderNumber + k))
      ensures ids == IssuedIds(old(systemConfig).value.lastOrderNumber, k)
      ensures forall i, j :: 0 <= i < j < |ids| ==> ids[i] != ids[j]
    {
      var start := systemConfig.value;
      ids := [];
      var i := 0;
      while i < k
        invariant 0 <= i <= k
        invariant systemConfig == Some(start.(lastOrderNumber := start.lastOrderNumber + i))
        invariant ids == IssuedIds(start.lastOrderNumber, i)
      {
        var id := GetNextOrderNumber(draw);
        ids := ids + [id];
        i := i + 1;
      }
      IssuedIdsDistinct(start.lastOrderNumber, k);
    }

    /**
     * `getAdminWhatsapp()`: the number of the configuration in use; before
     * initialisation, the number of the fallback configuration that a
     * failed load yields.
     */
    function AdminWhatsapp(): (number: string)
      reads this
      ensures number == LoadSystemConfig(systemConfig).adminWhatsapp
    {
      match systemConfig
      case None => FallbackAdmin
      case Some(config) => config.adminWhatsapp
    }

    /** `generateWhatsAppOrderUrl(orderDetails)`, with `encodeURIComponent` as `encode`. */
    function GenerateWhatsAppOrderUrl(orderDetails: string, encode: string -> string): string
      reads this
    {
      WhatsAppUrl(AdminWhatsapp(), encode(orderDetails))
    }
  }

  /**
   * Before initialisation and after a failed load, orders go to the same
   * number, and the URL names it and carries the encoded details.
   */
  lemma OrderUrlTargetsAdmin(store: ConfigStore, orderDetails: string, encode: string -> string)
    requires '?' !in store.AdminWhatsapp()
    ensures UrlParts(store.GenerateWhatsAppOrderUrl(orderDetails, encode)) ==
      Some((store.AdminWhatsapp(), encode(orderDetails)))
    ensures store.systemConfig.None? || store.systemConfig == Some(LoadSystemConfig(None)) ==>
      store.AdminWhatsapp() == FallbackAdmin
  {
    UrlRoundTrip(store.AdminWhatsapp(), encode(orderDetails));
  }
}
