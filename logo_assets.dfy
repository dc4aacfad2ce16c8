// The bundled logo table and the test that tells an image icon (a path,
// a web address or a data URI) from an emoji icon.

module LogoAssets {
  import opened Common

  datatype LogoGroup = Service | Payment

  /** A bundled logo: its display name, its path and its group. */
  datatype LogoAsset = LogoAsset(name: string, path: string, group: LogoGroup)

  /** The path of a bundled SVG file. */
  function Svg(file: string): string
  {
    "/assets/" + file + ".svg"
  }

  /** A group's logos from (name, file) pairs, in order. */
  function Bundle(entries: seq<(string, string)>, group: LogoGroup): (r: seq<LogoAsset>)
    ensures |r| == |entries|
  {
    seq(|entries|, i requires 0 <= i < |entries| => LogoAsset(entries[i].0, Svg(entries[i].1), group))
  }

  const ServiceLogos: seq<(string, string)> := [
    ("Netflix", "netflix"),
    ("Spotify", "spotify"),
    ("YouTube", "youtube"),
    ("Amazon", "amazon"),
    ("Disney+", "disney-plus"),
    ("HBO", "hbo"),
    ("Twitch", "twitch"),
    ("GitHub", "github"),
    ("Dropbox", "dropbox"),
    ("Adobe", "adobe"),
    ("Microsoft", "microsoft"),
    ("Slack", "slack"),
    ("Zoom", "zoom"),
    ("Steam", "steam"),
    ("PlayStation", "playstation"),
    ("Xbox", "xbox"),
    ("Nintendo", "nintendo"),
    ("iCloud", "icloud"),
    ("Notion", "notion"),
    ("Figma", "figma"),
    ("ChatGPT", "chatgpt"),
    ("VPN", "vpn"),
    ("Cloud Storage", "cloud-storage"),
    ("Music", "music-service"),
    ("Gaming", "gaming"),
    ("Fitness", "fitness")
  ]

  const PaymentLogos: seq<(string, string)> := [
    ("PayPal", "paypal"),
    ("Visa", "visa"),
    ("Visa Alt", "visa-alt"),
    ("Mastercard", "mastercard"),
    ("Mastercard Alt", "mastercard-alt"),
    ("American Express", "american-express"),
    ("Apple Pay", "apple-pay"),
    ("Google Pay", "google-pay"),
    ("Samsung Pay", "samsung-pay"),
    ("Amazon Pay", "amazon-pay"),
    ("Klarna", "klarna"),
    ("SEPA", "sepa"),
    ("Crypto", "crypto"),
    ("Maestro", "maestro"),
    ("Card Generic", "card-generic"),
    ("Card Gold", "card-generic-gold"),
    ("Diners Club", "diners"),
    ("Discover", "discover"),
    ("JCB", "jcb"),
    ("UnionPay", "unionpay"),
    ("Alipay", "alipay"),
    ("WeChat Pay", "wechat-pay"),
    ("Bancontact", "bancontact"),
    ("BLIK", "blik"),
    ("EPS", "eps"),
    ("Giropay", "giropay"),
    ("iDEAL", "ideal"),
    ("MobilePay", "mobilepay"),
    ("Paysafecard", "paysafecard"),
    ("Skrill", "skrill"),
    ("Swish", "swish"),
    ("TWINT", "twint"),
    ("V PAY", "vpay"),
    ("Invoice", "invoice"),
    ("Vipps", "vipps"),
    ("Elo", "elo"),
    ("Hipercard", "hipercard"),
    ("Przelewy24", "przelewy24"),
    ("Dankort", "dankort")
  ]

  /** The bundled logos: services first, then payment methods. */
  const Logos: seq<LogoAsset> := Bundle(ServiceLogos, Service) + Bundle(PaymentLogos, Payment)

  /** isImageIcon: an absolute path, an http(s) address or a data URI. */
  predicate IsImageIcon(icon: string)
  {
    StartsWith(icon, "/") || StartsWith(icon, "http") || StartsWith(icon, "data:")
  }

  /** Every bundled path lies under /assets/ and names an SVG file. */
  predicate BundledPath(path: string)
  {
    StartsWith(path, "/assets/") && |path| >= 4 && path[|path| - 4..] == ".svg"
  }

  /** An icon under /assets/ is an image icon. */
  lemma BundledPathIsImage(path: string)
    requires BundledPath(path)
    ensures IsImageIcon(path)
  {
    assert path[..1] == path[..8][..1];
  }

  lemma SvgIsBundled(file: string)
    ensures BundledPath(Svg(file))
  {
    assert Svg(file)[..8] == "/assets/";
    assert Svg(file)[|Svg(file)| - 4..] == ".svg";
  }

  /** Every bundled logo is an image icon. */
  lemma LogosAreImages()
    ensures forall a :: a in Logos ==> BundledPath(a.path) && IsImageIcon(a.path)
  {
    var services, payments := Bundle(ServiceLogos, Service), Bundle(PaymentLogos, Payment);
    BundleIsImages(ServiceLogos, Service);
    BundleIsImages(PaymentLogos, Payment);
    forall a | a in services + payments
      ensures a in services || a in payments
    {
    }
  }

  /** Every logo of a group lies under /assets/ as an SVG file. */
  lemma BundleIsImages(entries: seq<(string, string)>, group: LogoGroup)
    ensures forall a :: a in Bundle(entries, group) ==> BundledPath(a.path) && IsImageIcon(a.path)
  {
    var b := Bundle(entries, group);
    forall a | a in b
      ensures BundledPath(a.path) && IsImageIcon(a.path)
    {
      var i :| 0 <= i < |b| && b[i] == a;
      SvgIsBundled(entries[i].1);
      BundledPathIsImage(a.path);
    }
  }

  /** The three prefixes each make an image icon, https included; the
      default payment icon (an emoji) and an empty icon do not. */
  lemma ImageIconCases(rest: string)
    ensures IsImageIcon("/" + rest)
    ensures IsImageIcon("http" + rest) && IsImageIcon("https://" + rest)
    ensures IsImageIcon("data:" + rest)
    ensures !IsImageIcon("\U{1F4B3}") && !IsImageIcon("")
  {
    assert ("/" + rest)[..1] == "/";
    assert ("http" + rest)[..4] == "http";
    assert ("https://" + rest)[..4] == "http";
    assert ("data:" + rest)[..5] == "data:";
    var card := "\U{1F4B3}";
    assert |card| == 1 && card[0] == '\U{1F4B3}';
    assert card[..1] != "/" by { assert card[..1][0] == card[0]; }
  }

  /** An icon is an image icon exactly when it starts with one of the three
      prefixes. */
  lemma ImageIconIff(icon: string)
    ensures IsImageIcon(icon) <==>
      (|icon| >= 1 && icon[0] == '/') || (|icon| >= 4 && icon[..4] == "http") || (|icon| >= 5 && icon[..5] == "data:")
  {
    if |icon| >= 1 && icon[0] == '/' {
      assert icon[..1] == "/";
    }
  }
}
