/** The transaction record and the gateway calls around it
    (django_sagepay/models.py): the signature check, URL absolutising and
    `start_transaction`. */
module Models {
  import opened Base
  import opened Text
  import Codec

  const VpsProtocol: string := "2.23"

  /** HASH_FIELDS: the fields whose values, concatenated in this order, are
      hashed into a notification's signature. */
  const HashFields: seq<string> := [
    "VPSTxId", "VendorTxCode", "Status", "TxAuthNo", "Vendor", "AVSCV2",
    "SecurityKey", "AddressResult", "PostCodeResult", "CV2Result", "GiftAid",
    "3DSecureStatus", "CAVV", "AddressStatus", "PayerStatus", "CardType",
    "Last4Digits"]

  /** A framework request: only `build_absolute_uri` is used. */
  datatype HttpRequest = HttpRequest(buildAbsoluteUri: string -> string)

  // ---------------------------------------------------------------------------
  // is_valid_signature
  // ---------------------------------------------------------------------------

  /** The text one hash field feeds into the digest: Vendor from the stored
      request, SecurityKey from the stored response, everything else from the
      notification, a missing field giving ''. A stored Vendor that is not
      text cannot be fed to the digest (TypeError). */
  function HashFieldValue(f: string, request: map<string, Value>, response: map<string, string>,
                          notification: map<string, string>): (r: Result<string>)
    ensures r.Err? <==> f == "Vendor" && "Vendor" in request && !request["Vendor"].Text?
    ensures r.Err? ==> r.error == TypeError
    ensures f != "Vendor" && f != "SecurityKey" ==> r == Ok(GetOr(notification, f, ""))
    ensures f == "SecurityKey" ==> r == Ok(GetOr(response, f, ""))
    ensures f == "Vendor" && ("Vendor" !in request || request["Vendor"].Text?) ==>
      r == Ok(if "Vendor" in request then request["Vendor"].text else "")
  {
    if f == "Vendor" then
      if "Vendor" !in request then Ok("")
      else if request["Vendor"].Text? then Ok(request["Vendor"].text)
      else Err(TypeError)
    else if f == "SecurityKey" then Ok(GetOr(response, f, ""))
    else Ok(GetOr(notification, f, ""))
  }

  /** What the successive `md5.update` calls over `fields` have fed in: the
      concatenation of the fields' values in order. */
  function SignatureInput(fields: seq<string>, request: map<string, Value>,
                          response: map<string, string>, notification: map<string, string>): Result<string>
  {
    if fields == [] then Ok("")
    else
      match SignatureInput(fields[..|fields| - 1], request, response, notification)
      case Err(e) => Err(e)
      case Ok(prefix) =>
        match HashFieldValue(fields[|fields| - 1], request, response, notification)
        case Err(e) => Err(e)
        case Ok(v) => Ok(prefix + v)
  }

  /** `md5.hexdigest().upper() == notification_data.get('VPSSignature')`:
      a missing signature never matches. */
  function SignatureVerdict(md5: string -> string, request: map<string, Value>,
                            response: map<string, string>, notification: map<string, string>): Result<bool>
  {
    match SignatureInput(HashFields, request, response, notification)
    case Err(e) => Err(e)
    case Ok(input) =>
      Ok("VPSSignature" in notification && notification["VPSSignature"] == UpperAscii(md5(input)))
  }

  // ---------------------------------------------------------------------------
  // The transaction record
  // ---------------------------------------------------------------------------

  /** The values a new record is created with. */
  datatype Created = Created(
    vendorTxId: string,
    request: map<string, Value>,
    response: map<string, string>,
    extraData: map<string, string>)

  /** SagePayTransaction: the fields fixed at creation are constants; the
      three notification fields start unset and are written once a
      notification has been accepted. */
  class Transaction {
    const vendorTxId: string
    const dateCreated: int
    const request: map<string, Value>
    const response: map<string, string>
    const extraData: map<string, string>
    var notificationDate: Option<int>
    var notificationData: Option<map<string, string>>
    var acknowledgementData: Option<map<string, string>>

    constructor (c: Created, now: int)
      ensures vendorTxId == c.vendorTxId && dateCreated == now
      ensures request == c.request && response == c.response && extraData == c.extraData
      ensures notificationDate == None && notificationData == None && acknowledgementData == None
    {
      vendorTxId := c.vendorTxId;
      dateCreated := now;
      request := c.request;
      response := c.response;
      extraData := c.extraData;
      notificationDate := None;
      notificationData := None;
      acknowledgementData := None;
    }

    /** `is_valid_signature(notification_data)`: feeds the seventeen hash
        fields to the digest one by one and compares the upper-cased hex
        digest with the notification's VPSSignature. */
    method IsValidSignature(notification: map<string, string>, md5: string -> string)
      returns (r: Result<bool>)
      ensures r == SignatureVerdict(md5, request, response, notification)
    {
      var input := "";
      for i := 0 to |HashFields|
        invariant SignatureInput(HashFields[..i], request, response, notification) == Ok(input)
      {
        var f := HashFields[i];
        assert HashFields[..i + 1][..i] == HashFields[..i];
        var value: string;
        if f == "Vendor" {
          if "Vendor" !in request {
            value := "";
          } else if request["Vendor"].Text? {
            value := request["Vendor"].text;
          } else {
            assert SignatureInput(HashFields[..i + 1], request, response, notification) == Err(TypeError);
            SignatureInputFails(HashFields, i + 1, request, response, notification);
            return Err(TypeError);
          }
        } else if f == "SecurityKey" {
          value := GetOr(response, f, "");
        } else {
          value := GetOr(notification, f, "");
        }
        input := input + value;
      }
      assert HashFields[..|HashFields|] == HashFields;
      var signature := UpperAscii(md5(input));
      return Ok("VPSSignature" in notification && notification["VPSSignature"] == signature);
    }
  }

  /** The notification's values of `fields`, concatenated in order, a
      missing field giving ''. */
  function NotificationText(n: map<string, string>, fields: seq<string>): string
  {
    if fields == [] then "" else NotificationText(n, fields[..|fields| - 1]) + GetOr(n, fields[|fields| - 1], "")
  }

  /** Feeding two runs of fields one after the other is feeding their
      concatenation; the first failure wins. */
  lemma {:induction false} SignatureInputAppend(fs: seq<string>, gs: seq<string>, request: map<string, Value>,
                                               response: map<string, string>, n: map<string, string>)
    ensures SignatureInput(fs + gs, request, response, n) ==
      match SignatureInput(fs, request, response, n)
      case Err(e) => Err(e)
      case Ok(a) =>
        match SignatureInput(gs, request, response, n)
        case Err(e) => Err(e)
        case Ok(b) => Ok(a + b)
    decreases |gs|
  {
    if gs == [] {
      assert fs + gs == fs;
      var a := SignatureInput(fs, request, response, n);
      if a.Ok? {
        assert a.value + "" == a.value;
      }
    } else {
      var init := gs[..|gs| - 1];
      assert (fs + gs)[..|fs + gs| - 1] == fs + init;
      assert (fs + gs)[|fs + gs| - 1] == gs[|gs| - 1];
      SignatureInputAppend(fs, init, request, response, n);
      var last := HashFieldValue(gs[|gs| - 1], request, response, n);
      var a, b := SignatureInput(fs, request, response, n), SignatureInput(init, request, response, n);
      if a.Ok? && b.Ok? && last.Ok? {
        assert a.value + b.value + last.value == a.value + (b.value + last.value);
      }
    }
  }

  /** A failure while feeding a prefix of the fields is the failure of the
      whole run. */
  lemma SignatureInputFails(fs: seq<string>, k: nat, request: map<string, Value>,
                            response: map<string, string>, n: map<string, string>)
    requires k <= |fs| && SignatureInput(fs[..k], request, response, n).Err?
    ensures SignatureInput(fs, request, response, n) == SignatureInput(fs[..k], request, response, n)
  {
    SignatureInputAppend(fs[..k], fs[k..], request, response, n);
    assert fs[..k] + fs[k..] == fs;
  }

  /** Fields other than Vendor and SecurityKey are all read from the
      notification. */
  lemma {:induction false} SignatureInputFromNotification(fs: seq<string>, request: map<string, Value>,
                                                         response: map<string, string>, n: map<string, string>)
    requires forall i :: 0 <= i < |fs| ==> fs[i] != "Vendor" && fs[i] != "SecurityKey"
    ensures SignatureInput(fs, request, response, n) == Ok(NotificationText(n, fs))
  {
    if fs != [] {
      SignatureInputFromNotification(fs[..|fs| - 1], request, response, n);
    }
  }

  /** The digest input spelled out: the values of HASH_FIELDS in order,
      Vendor (the fifth) from the stored request, SecurityKey (the seventh)
      from the stored response, and all others (the first four, AVSCV2 and
      the last ten) from the notification. */
  lemma SignatureInputSpelledOut(request: map<string, Value>, response: map<string, string>,
                                 n: map<string, string>)
    requires "Vendor" in request ==> request["Vendor"].Text?
    ensures var vendor := if "Vendor" in request then request["Vendor"].text else "";
      SignatureInput(HashFields, request, response, n) == Ok(
        NotificationText(n, HashFields[..4])
        + vendor + GetOr(n, "AVSCV2", "") + GetOr(response, "SecurityKey", "")
        + NotificationText(n, HashFields[7..]))
  {
    HashFieldsSplit();
    SignatureInputLayout(HashFields, request, response, n);
  }

  /** The digest input for any run of seventeen fields laid out as
      HASH_FIELDS is. */
  lemma SignatureInputLayout(fields: seq<string>, request: map<string, Value>, response: map<string, string>,
                             n: map<string, string>)
    requires |fields| == 17 && fields[4..7] == ["Vendor", "AVSCV2", "SecurityKey"]
    requires forall i :: 0 <= i < 4 ==> fields[i] != "Vendor" && fields[i] != "SecurityKey"
    requires forall i :: 7 <= i < 17 ==> fields[i] != "Vendor" && fields[i] != "SecurityKey"
    requires "Vendor" in request ==> request["Vendor"].Text?
    ensures var vendor := if "Vendor" in request then request["Vendor"].text else "";
      SignatureInput(fields, request, response, n) == Ok(
        NotificationText(n, fields[..4])
        + vendor + GetOr(n, "AVSCV2", "") + GetOr(response, "SecurityKey", "")
        + NotificationText(n, fields[7..]))
  {
    var a, m, b := fields[..4], fields[4..7], fields[7..];
    assert fields == a + m + b;
    SignatureInputMiddle(request, response, n);
    SignatureInputAround(a, m, b, request, response, n);
    var vendor := if "Vendor" in request then request["Vendor"].text else "";
    var x, y := GetOr(n, "AVSCV2", ""), GetOr(response, "SecurityKey", "");
    var pre, post := NotificationText(n, a), NotificationText(n, b);
    assert pre + (vendor + x + y) + post == pre + vendor + x + y + post;
  }

  /** HASH_FIELDS around its three fields not all read from the
      notification: Vendor, AVSCV2, SecurityKey. */
  lemma HashFieldsSplit()
    ensures |HashFields| == 17
    ensures HashFields[4..7] == ["Vendor", "AVSCV2", "SecurityKey"]
    ensures forall i :: 0 <= i < 4 ==> HashFields[i] != "Vendor" && HashFields[i] != "SecurityKey"
    ensures forall i :: 7 <= i < 17 ==> HashFields[i] != "Vendor" && HashFields[i] != "SecurityKey"
  {
    var h := HashFields;
    assert h[4..7] == [h[4], h[5], h[6]];
    forall i | 0 <= i < 17 && i != 4 && i != 6
      ensures h[i] != "Vendor" && h[i] != "SecurityKey"
    {
      assert |h[i]| != 6 || h[i][0] != 'V';
      assert |h[i]| != 11 || h[i][0] != 'S';
    }
  }

  /** Fields read from the notification around a middle run. */
  lemma SignatureInputAround(a: seq<string>, m: seq<string>, b: seq<string>, request: map<string, Value>,
                             response: map<string, string>, n: map<string, string>)
    requires forall i :: 0 <= i < |a| ==> a[i] != "Vendor" && a[i] != "SecurityKey"
    requires forall i :: 0 <= i < |b| ==> b[i] != "Vendor" && b[i] != "SecurityKey"
    requires SignatureInput(m, request, response, n).Ok?
    ensures SignatureInput(a + m + b, request, response, n) ==
      Ok(NotificationText(n, a) + SignatureInput(m, request, response, n).value + NotificationText(n, b))
  {
    SignatureInputAppend(a + m, b, request, response, n);
    SignatureInputAppend(a, m, request, response, n);
    SignatureInputFromNotification(a, request, response, n);
    SignatureInputFromNotification(b, request, response, n);
  }

  /** The three middle hash fields: Vendor from the stored request, AVSCV2
      from the notification, SecurityKey from the stored response. */
  lemma SignatureInputMiddle(request: map<string, Value>, response: map<string, string>,
                             n: map<string, string>)
    requires "Vendor" in request ==> request["Vendor"].Text?
    ensures var vendor := if "Vendor" in request then request["Vendor"].text else "";
      SignatureInput(["Vendor", "AVSCV2", "SecurityKey"], request, response, n) ==
        Ok(vendor + GetOr(n, "AVSCV2", "") + GetOr(response, "SecurityKey", ""))
  {
    assert ["Vendor", "AVSCV2", "SecurityKey"] == ["Vendor"] + ["AVSCV2"] + ["SecurityKey"];
    SignatureInputAppend(["Vendor"] + ["AVSCV2"], ["SecurityKey"], request, response, n);
    SignatureInputAppend(["Vendor"], ["AVSCV2"], request, response, n);
    SignatureInputOne("Vendor", request, response, n);
    SignatureInputOne("AVSCV2", request, response, n);
    SignatureInputOne("SecurityKey", request, response, n);
  }

  lemma SignatureInputOne(f: string, request: map<string, Value>, response: map<string, string>,
                          n: map<string, string>)
    ensures SignatureInput([f], request, response, n) == HashFieldValue(f, request, response, n)
  {
    assert [f][..0] == [];
    var v := HashFieldValue(f, request, response, n);
    if v.Ok? {
      assert "" + v.value == v.value;
    }
  }

  /** Two notifications that agree on the hash fields read from the
      notification give the same digest input; the notification's own
      Vendor and SecurityKey play no part. */
  lemma {:induction false} SignatureInputIgnores(fields: seq<string>, request: map<string, Value>,
                                                response: map<string, string>,
                                                n1: map<string, string>, n2: map<string, string>)
    requires forall i :: 0 <= i < |fields| && fields[i] != "Vendor" && fields[i] != "SecurityKey" ==>
      GetOr(n1, fields[i], "") == GetOr(n2, fields[i], "")
    ensures SignatureInput(fields, request, response, n1) == SignatureInput(fields, request, response, n2)
  {
    if fields != [] {
      var init := fields[..|fields| - 1];
      SignatureInputIgnores(init, request, response, n1, n2);
    }
  }

  /** The verdict depends on the notification only through the hash fields
      it supplies and VPSSignature. */
  lemma SignatureIgnoresOtherFields(md5: string -> string, request: map<string, Value>,
                                    response: map<string, string>,
                                    n1: map<string, string>, n2: map<string, string>)
    requires forall f :: f in HashFields && f != "Vendor" && f != "SecurityKey" ==>
      GetOr(n1, f, "") == GetOr(n2, f, "")
    requires ("VPSSignature" in n1 <==> "VPSSignature" in n2)
    requires "VPSSignature" in n1 ==> n1["VPSSignature"] == n2["VPSSignature"]
    ensures SignatureVerdict(md5, request, response, n1) == SignatureVerdict(md5, request, response, n2)
  {
    SignatureInputIgnores(HashFields, request, response, n1, n2);
  }

  /** The comparison is exact: a signature holding a lower-case letter, or
      no signature at all, never matches the upper-cased digest. */
  lemma LowercaseOrMissingSignatureRejected(md5: string -> string, request: map<string, Value>,
                                            response: map<string, string>, n: map<string, string>)
    requires SignatureVerdict(md5, request, response, n).Ok?
    requires "VPSSignature" in n ==> exists i :: 0 <= i < |n["VPSSignature"]| && IsLowerAscii(n["VPSSignature"][i])
    ensures SignatureVerdict(md5, request, response, n) == Ok(false)
  {
    if "VPSSignature" in n {
      var s := n["VPSSignature"];
      var i :| 0 <= i < |s| && IsLowerAscii(s[i]);
      var input := SignatureInput(HashFields, request, response, n).value;
      var digest := UpperAscii(md5(input));
      if |digest| == |s| {
        assert !IsLowerAscii(digest[i]);
      }
    }
  }

  // ---------------------------------------------------------------------------
  // ensure_absolute_url
  // ---------------------------------------------------------------------------

  predicate IsAbsolute(url: string)
  {
    StartsWith(url, "http://") || StartsWith(url, "https://")
  }

  /** `ensure_absolute_url(url, request, url_base)`: an absolute URL is kept;
      a relative one is joined to a non-empty base, or else resolved by the
      request; with neither the call fails. */
  function EnsureAbsoluteUrl(url: string, request: Option<HttpRequest>, urlBase: Option<string>)
    : (r: Result<string>)
    ensures IsAbsolute(url) ==> r == Ok(url)
    ensures r.Err? <==> !IsAbsolute(url) && (urlBase.None? || urlBase.value == []) && request.None?
    ensures r.Err? ==> r.error.SagePayError? && r.error.status.None?
  {
    if IsAbsolute(url) then Ok(url)
    else if urlBase.Some? && urlBase.value != [] then Ok(RStrip(urlBase.value, '/') + url)
    else if request.Some? then Ok(request.value.buildAbsoluteUri(url))
    else Err(SagePayError("No url_base or request supplied: cannot construct absolute URL", None))
  }

  /** A relative URL is appended to the base without its trailing slashes,
      and a non-empty base wins over the request. */
  lemma RelativeUrlJoinsBase(url: string, request: Option<HttpRequest>, base: string)
    requires !IsAbsolute(url) && base != []
    ensures EnsureAbsoluteUrl(url, request, Some(base)) == EnsureAbsoluteUrl(url, None, Some(base))
    ensures var r := EnsureAbsoluteUrl(url, request, Some(base)).value;
      && StartsWith(r, RStrip(base, '/'))
      && r[|RStrip(base, '/')|..] == url
      && (url != [] && url[0] == '/' ==>
            && r[|RStrip(base, '/')|] == '/'
            && (RStrip(base, '/') == [] || r[|RStrip(base, '/')| - 1] != '/'))
  {
    var b := RStrip(base, '/');
    var r := b + url;
    assert r[..|b|] == b;
    assert r[|b|..] == url;
  }

  /** With a base that is itself absolute once its trailing slashes are
      dropped, every relative URL comes out absolute, and making the result
      absolute a second time changes nothing. */
  lemma AbsoluteBaseGivesAbsolute(url: string, request: Option<HttpRequest>, base: string)
    requires base != [] && IsAbsolute(RStrip(base, '/'))
    ensures var r := EnsureAbsoluteUrl(url, request, Some(base));
      r.Ok? && IsAbsolute(r.value) && EnsureAbsoluteUrl(r.value, request, Some(base)) == r
  {
    var b := RStrip(base, '/');
    if !IsAbsolute(url) {
      var r := b + url;
      if StartsWith(b, "http://") {
        assert r[..7] == b[..7];
      } else {
        assert r[..8] == b[..8];
      }
    }
  }

  /** The prefix test is case-sensitive: an upper-case scheme counts as a
      relative URL and is appended to the base. */
  lemma SchemeTestIsCaseSensitive()
    ensures EnsureAbsoluteUrl("HTTP://a/", None, Some("http://b/")) == Ok("http://bHTTP://a/")
  {
    var url := "HTTP://a/";
    assert url[0] == 'H' != "http://"[0];
    assert !StartsWith(url, "http://") && !StartsWith(url, "https://");
    assert RStrip("http://b", '/') == "http://b";
    assert RStrip("http://b/", '/') == "http://b";
    assert "http://b" + url == "http://bHTTP://a/";
  }

  // ---------------------------------------------------------------------------
  // start_transaction
  // ---------------------------------------------------------------------------

  /** The protocol defaults: VPSProtocol 2.23, TxType PAYMENT and the
      freshly generated VendorTxCode. */
  function ProtocolDefaults(generatedId: string): map<string, Value>
  {
    map["VPSProtocol" := Text(VpsProtocol), "TxType" := Text("PAYMENT"),
        "VendorTxCode" := Text(generatedId)]
  }

  /** The two `update` calls: caller fields override SAGEPAY_DEFAULTS, which
      override the protocol defaults. */
  function MergedData(generatedId: string, settings: map<string, Value>, caller: map<string, Value>)
    : (r: map<string, Value>)
    ensures r.Keys == ProtocolDefaults(generatedId).Keys + settings.Keys + caller.Keys
    ensures forall k :: k in caller ==> r[k] == caller[k]
    ensures forall k :: k in settings && k !in caller ==> r[k] == settings[k]
    ensures forall k :: k in ProtocolDefaults(generatedId) && k !in settings && k !in caller ==>
      r[k] == ProtocolDefaults(generatedId)[k]
  {
    ProtocolDefaults(generatedId) + settings + caller
  }

  /** `data['NotificationURL'] = ensure_absolute_url(data['NotificationURL'], ...)` */
  function WithAbsoluteNotificationUrl(data: map<string, Value>, request: Option<HttpRequest>,
                                       urlBase: Option<string>): (r: Result<map<string, Value>>)
    ensures "NotificationURL" !in data ==> r == Err(KeyError("NotificationURL"))
    ensures "NotificationURL" in data ==>
      && (r.Ok? <==> data["NotificationURL"].Text?
                     && EnsureAbsoluteUrl(data["NotificationURL"].text, request, urlBase).Ok?)
      && (!data["NotificationURL"].Text? ==> r == Err(AttributeError))
      && (data["NotificationURL"].Text? && r.Err? ==>
            r == Err(EnsureAbsoluteUrl(data["NotificationURL"].text, request, urlBase).error))
    ensures r.Ok? ==>
      && r.value.Keys == data.Keys
      && (forall k :: k in data && k != "NotificationURL" ==> r.value[k] == data[k])
      && data["NotificationURL"].Text?
      && r.value["NotificationURL"].Text?
      && EnsureAbsoluteUrl(data["NotificationURL"].text, request, urlBase) == Ok(r.value["NotificationURL"].text)
  {
    if "NotificationURL" !in data then Err(KeyError("NotificationURL"))
    else if !data["NotificationURL"].Text? then Err(AttributeError)
    else
      match EnsureAbsoluteUrl(data["NotificationURL"].text, request, urlBase)
      case Err(e) => Err(e)
      case Ok(u) => Ok(data["NotificationURL" := Text(u)])
  }

  const ExtraUrlKeys: seq<string> := ["success_url", "failure_url"]

  /** The loop over 'success_url' and 'failure_url' in `extra_data`: each
      that is present is made absolute, in order, the first failure ending
      the loop. */
  function AbsoluteExtra(keys: seq<string>, extra: map<string, string>, request: Option<HttpRequest>,
                         urlBase: Option<string>): Result<map<string, string>>
  {
    if keys == [] then Ok(extra)
    else if keys[0] !in extra then AbsoluteExtra(keys[1..], extra, request, urlBase)
    else
      match EnsureAbsoluteUrl(extra[keys[0]], request, urlBase)
      case Err(e) => Err(e)
      case Ok(u) => AbsoluteExtra(keys[1..], extra[keys[0] := u], request, urlBase)
  }

  /** success_url and failure_url, when present, are replaced by their
      absolute forms; the call fails only if one of them cannot be made
      absolute; nothing else in `extra_data` changes. */
  lemma ExtraUrlsMadeAbsolute(extra: map<string, string>, request: Option<HttpRequest>,
                              urlBase: Option<string>)
    ensures var r := AbsoluteExtra(ExtraUrlKeys, extra, request, urlBase);
      && (r.Err? <==>
            || ("success_url" in extra && EnsureAbsoluteUrl(extra["success_url"], request, urlBase).Err?)
            || ("failure_url" in extra && EnsureAbsoluteUrl(extra["failure_url"], request, urlBase).Err?))
      && (r.Ok? ==>
            && r.value.Keys == extra.Keys
            && (forall k :: k in extra && k != "success_url" && k != "failure_url" ==> r.value[k] == extra[k])
            && (forall k :: k in extra && (k == "success_url" || k == "failure_url") ==>
                  EnsureAbsoluteUrl(extra[k], request, urlBase) == Ok(r.value[k])))
  {
    AbsoluteExtraTwo("success_url", "failure_url", extra, request, urlBase);
  }

  /** The loop over two distinct keys. */
  lemma AbsoluteExtraTwo(k1: string, k2: string, extra: map<string, string>, request: Option<HttpRequest>,
                         urlBase: Option<string>)
    requires k1 != k2
    ensures var r := AbsoluteExtra([k1, k2], extra, request, urlBase);
      && (r.Err? <==>
            || (k1 in extra && EnsureAbsoluteUrl(extra[k1], request, urlBase).Err?)
            || (k2 in extra && EnsureAbsoluteUrl(extra[k2], request, urlBase).Err?))
      && (r.Ok? ==>
            && r.value.Keys == extra.Keys
            && (forall k :: k in extra && k != k1 && k != k2 ==> r.value[k] == extra[k])
            && (forall k :: k in extra && (k == k1 || k == k2) ==>
                  EnsureAbsoluteUrl(extra[k], request, urlBase) == Ok(r.value[k])))
  {
    assert [k1, k2][1..] == [k2];
    AbsoluteExtraOne(k2, extra, request, urlBase);
    if k1 in extra {
      var s := EnsureAbsoluteUrl(extra[k1], request, urlBase);
      if s.Ok? {
        AbsoluteExtraOne(k2, extra[k1 := s.value], request, urlBase);
      }
    }
  }

  lemma AbsoluteExtraOne(key: string, extra: map<string, string>, request: Option<HttpRequest>,
                         urlBase: Option<string>)
    ensures AbsoluteExtra([key], extra, request, urlBase) ==
      if key !in extra then Ok(extra)
      else match EnsureAbsoluteUrl(extra[key], request, urlBase)
        case Err(e) => Err(e)
        case Ok(u) => Ok(extra[key := u])
  {
    assert [key][1..] == [];
  }

  /** What `start_transaction` has built before it calls the gateway: the
      truncated data (stored as the record's request), the absolutised
      extra data and the request encoded for the wire. */
  datatype Prepared = Prepared(data: map<string, Value>, extra: map<string, string>, body: map<string, string>)

  /** Truncation followed by encoding: the request that is stored and the
      body that is sent, or the error the first of the two raises. */
  function TruncatedAndEncoded(data: map<string, Value>, fmt: Codec.Formats)
    : Result<(map<string, Value>, map<string, string>)>
  {
    match Codec.Truncated(data)
    case Err(e) => Err(e)
    case Ok(data') =>
      match Codec.EncodedRequest(data', fmt)
      case Err(e) => Err(e)
      case Ok(body) => Ok((data', body))
  }

  /** No basket ever reaches the gateway: a list basket has no `.encode` for
      the truncator, a text basket that fits is kept and then has no `.get`
      for the basket encoder, and a text basket over 7500 bytes is dropped. */
  lemma NoBasketReachesGateway(data: map<string, Value>, fmt: Codec.Formats)
    requires TruncatedAndEncoded(data, fmt).Ok?
    ensures "Basket" !in TruncatedAndEncoded(data, fmt).value.1
  {
    Codec.TruncatedBasket(data);
    var t := Codec.Truncated(data).value;
    assert "Basket" in t ==> t["Basket"].Text? && Truthy(t["Basket"]);
  }

  /** The steps of `start_transaction` before the gateway call, or the
      error the first failing one raises. */
  function Prepare(generatedId: string, settings: map<string, Value>, caller: map<string, Value>,
                   extra: map<string, string>, request: Option<HttpRequest>, urlBase: Option<string>,
                   fmt: Codec.Formats): Result<Prepared>
  {
    match WithAbsoluteNotificationUrl(MergedData(generatedId, settings, caller), request, urlBase)
    case Err(e) => Err(e)
    case Ok(data) =>
      match AbsoluteExtra(ExtraUrlKeys, extra, request, urlBase)
      case Err(e) => Err(e)
      case Ok(extra') =>
        match TruncatedAndEncoded(data, fmt)
        case Err(e) => Err(e)
        case Ok(pair) => Ok(Prepared(pair.0, extra', pair.1))
  }

  /** The merged VendorTxCode reaches the stored request unchanged. */
  lemma PreparedVendorTxCode(generatedId: string, settings: map<string, Value>, caller: map<string, Value>,
                             extra: map<string, string>, request: Option<HttpRequest>, urlBase: Option<string>,
                             fmt: Codec.Formats)
    requires Prepare(generatedId, settings, caller, extra, request, urlBase, fmt).Ok?
    ensures var p := Prepare(generatedId, settings, caller, extra, request, urlBase, fmt).value;
      && "VendorTxCode" in p.data
      && p.data["VendorTxCode"] == MergedData(generatedId, settings, caller)["VendorTxCode"]
  {
    var merged := MergedData(generatedId, settings, caller);
    var data := WithAbsoluteNotificationUrl(merged, request, urlBase).value;
    Codec.VendorTxCodeUntouched(data);
  }

  /** The outcome of the gateway call: a transport failure or non-200
      status (RequestException, with its repr), or the response text. */
  datatype HttpOutcome = RequestFailed(repr: string) | Received(text: string)

  /** What `start_transaction` returns and, when it gets that far, the
      record it creates. */
  datatype Start = Start(result: Result<string>, created: Option<Created>)

  /** The decision once the gateway's response has been decoded: anything
      but Status 'OK' raises with Status and StatusDetail; 'OK' creates the
      record (unless the id is taken) and then reads NextURL. */
  function AfterResponse(data: map<string, Value>, extra: map<string, string>,
                         response: map<string, string>, fmt: Codec.Formats, existing: set<string>): Start
  {
    if "Status" !in response then Start(Err(KeyError("Status")), None)
    else if response["Status"] != "OK" then
      if "StatusDetail" !in response then Start(Err(KeyError("StatusDetail")), None)
      else Start(Err(SagePayError(response["StatusDetail"], Some(response["Status"]))), None)
    else if "VendorTxCode" !in data then Start(Err(KeyError("VendorTxCode")), None)
    else
      var id := Codec.Render(data["VendorTxCode"], fmt);
      if id in existing then Start(Err(IntegrityError), None)
      else
        var result := if "NextURL" in response then Ok(response["NextURL"]) else Err(KeyError("NextURL"));
        Start(result, Some(Created(id, data, response, extra)))
  }

  /** `start_transaction` from the gateway call on, given what the steps
      before it produced. */
  function StartedFrom(prepared: Result<Prepared>, gateway: map<string, string> -> HttpOutcome,
                       fmt: Codec.Formats, existing: set<string>): Start
  {
    match prepared
    case Err(e) => Start(Err(e), None)
    case Ok(p) =>
      match gateway(p.body)
      case RequestFailed(repr) => Start(Err(SagePayError(repr, None)), None)
      case Received(text) =>
        match Codec.DecodeTransactionResponse(text)
        case Err(e) => Start(Err(e), None)
        case Ok(response) => AfterResponse(p.data, p.extra, response, fmt, existing)
  }

  /** `start_transaction`; `existing` are the ids already stored, `gateway`
      the HTTP exchange for an encoded request. */
  function Started(generatedId: string, settings: map<string, Value>, caller: map<string, Value>,
                   extra: map<string, string>, request: Option<HttpRequest>, urlBase: Option<string>,
                   gateway: map<string, string> -> HttpOutcome, fmt: Codec.Formats,
                   existing: set<string>): Start
  {
    StartedFrom(Prepare(generatedId, settings, caller, extra, request, urlBase, fmt), gateway, fmt, existing)
  }

  /** Any Status other than 'OK', 'OK REPEATED' included, raises an error
      carrying Status and StatusDetail, and nothing is stored. */
  lemma NonOkStatusRejected(data: map<string, Value>, extra: map<string, string>,
                            response: map<string, string>, fmt: Codec.Formats, existing: set<string>)
    requires "Status" in response && response["Status"] != "OK" && "StatusDetail" in response
    ensures AfterResponse(data, extra, response, fmt, existing) ==
      Start(Err(SagePayError(response["StatusDetail"], Some(response["Status"]))), None)
  {
  }

  /** After the response: a record is created exactly on Status 'OK' under
      an id not yet stored, from the given data; a returned URL means it was
      created, and is the response's NextURL. */
  lemma AfterResponseCreatesOnOk(data: map<string, Value>, extra: map<string, string>,
                                 response: map<string, string>, fmt: Codec.Formats, existing: set<string>)
    ensures var s := AfterResponse(data, extra, response, fmt, existing);
      && (s.result.Ok? ==> s.created.Some?)
      && (s.created.Some? ==>
            var c := s.created.value;
            && c.request == data && c.extraData == extra && c.response == response
            && "Status" in response && response["Status"] == "OK"
            && "VendorTxCode" in data && c.vendorTxId == Codec.Render(data["VendorTxCode"], fmt)
            && c.vendorTxId !in existing
            && s.result == (if "NextURL" in response then Ok(response["NextURL"]) else Err(KeyError("NextURL"))))
    ensures var s := AfterResponse(data, extra, response, fmt, existing);
      ("Status" in response && response["Status"] == "OK" && "VendorTxCode" in data
       && Codec.Render(data["VendorTxCode"], fmt) !in existing) ==>
        && s.created == Some(Created(Codec.Render(data["VendorTxCode"], fmt), data, response, extra))
        && ("NextURL" in response ==> s.result == Ok(response["NextURL"]))
  {
  }

  /** Once the request is prepared: a record is created only after a
      decoded 'OK' from the gateway, and it holds the prepared data and
      extra data and the decoded response. */
  lemma StartedFromCreatesOnOk(prepared: Result<Prepared>, gateway: map<string, string> -> HttpOutcome,
                               fmt: Codec.Formats, existing: set<string>)
    ensures var s := StartedFrom(prepared, gateway, fmt, existing);
      && (s.result.Ok? ==> s.created.Some?)
      && (s.created.Some? ==>
            var c := s.created.value;
            && prepared.Ok? && c.request == prepared.value.data && c.extraData == prepared.value.extra
            && gateway(prepared.value.body).Received?
            && Codec.DecodeTransactionResponse(gateway(prepared.value.body).text) == Ok(c.response)
            && c.response["Status"] == "OK"
            && c.vendorTxId !in existing
            && "VendorTxCode" in prepared.value.data
            && c.vendorTxId == Codec.Render(prepared.value.data["VendorTxCode"], fmt))
    ensures (prepared.Ok? && gateway(prepared.value.body).Received?
             && Codec.DecodeTransactionResponse(gateway(prepared.value.body).text).Ok?) ==>
        var s := StartedFrom(prepared, gateway, fmt, existing);
        var p := prepared.value;
        var response := Codec.DecodeTransactionResponse(gateway(p.body).text).value;
        ("Status" in response && response["Status"] == "OK" && "VendorTxCode" in p.data
         && Codec.Render(p.data["VendorTxCode"], fmt) !in existing) ==>
          && s.created == Some(Created(Codec.Render(p.data["VendorTxCode"], fmt), p.data, response, p.extra))
          && ("NextURL" in response ==> s.result == Ok(response["NextURL"]))
  {
    if prepared.Ok? {
      var outcome := gateway(prepared.value.body);
      if outcome.Received? {
        var response := Codec.DecodeTransactionResponse(outcome.text);
        if response.Ok? {
          AfterResponseCreatesOnOk(prepared.value.data, prepared.value.extra, response.value, fmt, existing);
        }
      }
    }
  }

  /** A record is created only after a decoded 'OK' from the gateway, under
      the merged VendorTxCode, holding the truncated request, the decoded
      response and the absolutised extra data. */
  lemma StartedCreatesOnOk(generatedId: string, settings: map<string, Value>, caller: map<string, Value>,
                           extra: map<string, string>, request: Option<HttpRequest>, urlBase: Option<string>,
                           gateway: map<string, string> -> HttpOutcome, fmt: Codec.Formats,
                           existing: set<string>)
    ensures var s := Started(generatedId, settings, caller, extra, request, urlBase, gateway, fmt, existing);
      && (s.result.Ok? ==> s.created.Some?)
      && (s.created.Some? ==>
            var c := s.created.value;
            var p := Prepare(generatedId, settings, caller, extra, request, urlBase, fmt);
            && p.Ok? && c.request == p.value.data && c.extraData == p.value.extra
            && gateway(p.value.body).Received?
            && Codec.DecodeTransactionResponse(gateway(p.value.body).text) == Ok(c.response)
            && c.response["Status"] == "OK"
            && c.vendorTxId !in existing
            && c.vendorTxId == Codec.Render(MergedData(generatedId, settings, caller)["VendorTxCode"], fmt))
    ensures var p := Prepare(generatedId, settings, caller, extra, request, urlBase, fmt);
      (p.Ok? && gateway(p.value.body).Received?
       && Codec.DecodeTransactionResponse(gateway(p.value.body).text).Ok?) ==>
        var s := Started(generatedId, settings, caller, extra, request, urlBase, gateway, fmt, existing);
        var response := Codec.DecodeTransactionResponse(gateway(p.value.body).text).value;
        var id := Codec.Render(MergedData(generatedId, settings, caller)["VendorTxCode"], fmt);
        "Status" in response && response["Status"] == "OK" && id !in existing ==>
          && s.created == Some(Created(id, p.value.data, response, p.value.extra))
          && ("NextURL" in response ==> s.result == Ok(response["NextURL"]))
  {
    var p := Prepare(generatedId, settings, caller, extra, request, urlBase, fmt);
    StartedFromCreatesOnOk(p, gateway, fmt, existing);
    if p.Ok? {
      PreparedVendorTxCode(generatedId, settings, caller, extra, request, urlBase, fmt);
    }
  }

  /** The VendorTxCode the record is stored under: the caller's if given,
      else the settings default's, else the generated one. */
  lemma VendorTxCodePrecedence(generatedId: string, settings: map<string, Value>, caller: map<string, Value>)
    ensures var v := MergedData(generatedId, settings, caller)["VendorTxCode"];
      && ("VendorTxCode" in caller ==> v == caller["VendorTxCode"])
      && ("VendorTxCode" !in caller && "VendorTxCode" in settings ==> v == settings["VendorTxCode"])
      && ("VendorTxCode" !in caller && "VendorTxCode" !in settings ==> v == Text(generatedId))
  {
  }

  /** The records, keyed by vendor_tx_id, which is unique. */
  class TransactionStore {
    var records: map<string, Transaction>

    predicate Valid()
      reads this
    {
      forall k :: k in records ==> records[k].vendorTxId == k
    }

    constructor ()
      ensures records == map[] && Valid()
    {
      records := map[];
    }

    /** `SagePayTransaction.objects.create(...)`: a second record with the
        same vendor_tx_id violates the unique constraint. */
    method Create(c: Created, now: int) returns (r: Result<Transaction>)
      requires Valid()
      modifies this
      ensures Valid()
      ensures c.vendorTxId in old(records) ==> r == Err(IntegrityError) && records == old(records)
      ensures c.vendorTxId !in old(records) ==>
        && r.Ok? && fresh(r.value)
        && records == old(records)[c.vendorTxId := r.value]
        && r.value.vendorTxId == c.vendorTxId && r.value.request == c.request
        && r.value.response == c.response && r.value.extraData == c.extraData
        && r.value.dateCreated == now && r.value.notificationDate.None?
        && r.value.notificationData.None? && r.value.acknowledgementData.None?
    {
      if c.vendorTxId in records {
        return Err(IntegrityError);
      }
      var t := new Transaction(c, now);
      records := records[c.vendorTxId := t];
      return Ok(t);
    }
  }

  /** `for key in ['success_url', 'failure_url']`: each key present in
      `extra_data` is made absolute in turn. */
  method MakeExtraUrlsAbsolute(extra: map<string, string>, request: Option<HttpRequest>, urlBase: Option<string>)
    returns (r: Result<map<string, string>>)
    ensures r == AbsoluteExtra(ExtraUrlKeys, extra, request, urlBase)
  {
    var extra' := extra;
    for i := 0 to |ExtraUrlKeys|
      invariant AbsoluteExtra(ExtraUrlKeys[i..], extra', request, urlBase)
             == AbsoluteExtra(ExtraUrlKeys, extra, request, urlBase)
    {
      var key := ExtraUrlKeys[i];
      assert ExtraUrlKeys[i..][1..] == ExtraUrlKeys[i + 1..];
      if key in extra' {
        var u := EnsureAbsoluteUrl(extra'[key], request, urlBase);
        if u.Err? {
          return Err(u.error);
        }
        extra' := extra'[key := u.value];
      }
    }
    assert ExtraUrlKeys[|ExtraUrlKeys|..] == [];
    return Ok(extra');
  }

  /** The two `update` calls and the NotificationURL made absolute. */
  method NotificationData(generatedId: string, settings: map<string, Value>, caller: map<string, Value>,
                          request: Option<HttpRequest>, urlBase: Option<string>)
    returns (r: Result<map<string, Value>>)
    ensures r == WithAbsoluteNotificationUrl(MergedData(generatedId, settings, caller), request, urlBase)
  {
    var data := ProtocolDefaults(generatedId);
    data := data + settings;
    data := data + caller;
    assert data == MergedData(generatedId, settings, caller);
    if "NotificationURL" !in data {
      return Err(KeyError("NotificationURL"));
    }
    if !data["NotificationURL"].Text? {
      return Err(AttributeError);
    }
    var url := EnsureAbsoluteUrl(data["NotificationURL"].text, request, urlBase);
    if url.Err? {
      return Err(url.error);
    }
    return Ok(data["NotificationURL" := Text(url.value)]);
  }

  /** `truncate_overlong_fields` and then `encode_transaction_request`. */
  method TruncateAndEncode(data: map<string, Value>, fmt: Codec.Formats)
    returns (r: Result<(map<string, Value>, map<string, string>)>)
    ensures r == TruncatedAndEncoded(data, fmt)
  {
    var truncated := Codec.TruncateOverlongFields(data);
    if truncated.Err? {
      return Err(truncated.error);
    }
    var body := Codec.EncodeTransactionRequest(truncated.value, fmt);
    if body.Err? {
      return Err(body.error);
    }
    return Ok((truncated.value, body.value));
  }

  /** The steps of `start_transaction` before the gateway call: the two
      `update` calls, the NotificationURL, the extra-data URLs, truncation
      and encoding. */
  method PrepareTransaction(generatedId: string, settings: map<string, Value>, caller: map<string, Value>,
                            extra: map<string, string>, request: Option<HttpRequest>,
                            urlBase: Option<string>, fmt: Codec.Formats)
    returns (r: Result<Prepared>)
    ensures r == Prepare(generatedId, settings, caller, extra, request, urlBase, fmt)
  {
    var data := NotificationData(generatedId, settings, caller, request, urlBase);
    if data.Err? {
      return Err(data.error);
    }
    var extra' := MakeExtraUrlsAbsolute(extra, request, urlBase);
    if extra'.Err? {
      return Err(extra'.error);
    }
    var pair := TruncateAndEncode(data.value, fmt);
    if pair.Err? {
      return Err(pair.error);
    }
    return Ok(Prepared(pair.value.0, extra'.value, pair.value.1));
  }

  /** The end of `start_transaction`: the status test, the record creation
      and the NextURL lookup, which happens after the record is stored. */
  method Conclude(store: TransactionStore, data: map<string, Value>, extra: map<string, string>,
                  response: map<string, string>, fmt: Codec.Formats, now: int)
    returns (r: Result<string>)
    requires store.Valid()
    modifies store
    ensures store.Valid()
    ensures var s := AfterResponse(data, extra, response, fmt, old(store.records).Keys);
      && r == s.result
      && (s.created.None? ==> store.records == old(store.records))
      && (s.created.Some? ==>
            var c := s.created.value;
            && store.records.Keys == old(store.records).Keys + {c.vendorTxId}
            && (forall k :: k in old(store.records) ==> store.records[k] == old(store.records)[k])
            && fresh(store.records[c.vendorTxId])
            && store.records[c.vendorTxId].vendorTxId == c.vendorTxId
            && store.records[c.vendorTxId].request == c.request
            && store.records[c.vendorTxId].response == c.response
            && store.records[c.vendorTxId].extraData == c.extraData
            && store.records[c.vendorTxId].dateCreated == now
            && store.records[c.vendorTxId].notificationDate.None?
            && store.records[c.vendorTxId].notificationData.None?
            && store.records[c.vendorTxId].acknowledgementData.None?)
  {
    if "Status" !in response {
      return Err(KeyError("Status"));
    }
    if response["Status"] != "OK" {
      if "StatusDetail" !in response {
        return Err(KeyError("StatusDetail"));
      }
      return Err(SagePayError(response["StatusDetail"], Some(response["Status"])));
    }
    if "VendorTxCode" !in data {
      return Err(KeyError("VendorTxCode"));
    }
    var c := Created(Codec.Render(data["VendorTxCode"], fmt), data, response, extra);
    var record := store.Create(c, now);
    if record.Err? {
      return Err(record.error);
    }
    if "NextURL" !in response {
      return Err(KeyError("NextURL"));
    }
    return Ok(response["NextURL"]);
  }

  /** `start_transaction(transaction_data, extra_data, request, url_base)`
      against a store, with the generated id, the settings defaults, the
      gateway exchange and the clock as inputs. */
  method StartTransaction(store: TransactionStore, generatedId: string, settings: map<string, Value>,
                          caller: map<string, Value>, extra: map<string, string>,
                          request: Option<HttpRequest>, urlBase: Option<string>,
                          gateway: map<string, string> -> HttpOutcome, fmt: Codec.Formats, now: int)
    returns (r: Result<string>)
    requires store.Valid()
    modifies store
    ensures store.Valid()
    ensures var s := Started(generatedId, settings, caller, extra, request, urlBase, gateway, fmt,
                             old(store.records).Keys);
      && r == s.result
      && (s.created.None? ==> store.records == old(store.records))
      && (s.created.Some? ==>
            var c := s.created.value;
            && store.records.Keys == old(store.records).Keys + {c.vendorTxId}
            && (forall k :: k in old(store.records) ==> store.records[k] == old(store.records)[k])
            && fresh(store.records[c.vendorTxId])
            && store.records[c.vendorTxId].vendorTxId == c.vendorTxId
            && store.records[c.vendorTxId].request == c.request
            && store.records[c.vendorTxId].response == c.response
            && store.records[c.vendorTxId].extraData == c.extraData
            && store.records[c.vendorTxId].dateCreated == now
            && store.records[c.vendorTxId].notificationDate.None?
            && store.records[c.vendorTxId].notificationData.None?
            && store.records[c.vendorTxId].acknowledgementData.None?)
  {
    var prepared := PrepareTransaction(generatedId, settings, caller, extra, request, urlBase, fmt);
    if prepared.Err? {
      return Err(prepared.error);
    }
    var p := prepared.value;
    var outcome := gateway(p.body);
    if outcome.RequestFailed? {
      return Err(SagePayError(outcome.repr, None));
    }
    var response := Codec.DecodeTransactionResponse(outcome.text);
    if response.Err? {
      return Err(response.error);
    }
    r := Conclude(store, p.data, p.extra, response.value, fmt, now);
  }
}
