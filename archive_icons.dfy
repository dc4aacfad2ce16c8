// The custom icons of a .subly archive. Logos and payment-method icons that
// are inline `data:` URIs (RFC 2397) are collected once each under numbered
// file names, replaced in the exported data by `icons/<file>` paths, and put
// back from the archive's `icons/` folder on import.

module ArchiveIcons {
  import opened Common
  import opened Schema

  /** isBase64Icon: the icon is an inline `data:` URI. */
  predicate IsBase64Icon(icon: string)
  {
    StartsWith(icon, "data:")
  }

  /** `\w` in a regular expression. */
  predicate IsWordChar(c: char)
  {
    ('a' <= c <= 'z') || ('A' <= c <= 'Z') || IsDigit(c) || c == '_'
  }

  /** The longest prefix of word characters. */
  function WordPrefix(s: string): (r: string)
    ensures |r| <= |s| && r == s[..|r|]
    ensures forall i :: 0 <= i < |r| ==> IsWordChar(r[i])
    ensures |r| < |s| ==> !IsWordChar(s[|r|])
  {
    if s != [] && IsWordChar(s[0]) then [s[0]] + WordPrefix(s[1..]) else []
  }

  /** `s.replace(pat, rep)` with a string pattern: only the first occurrence. */
  function ReplaceText(s: string, pat: string, rep: string): string
    requires pat != []
    decreases |s|
  {
    if |s| < |pat| then s
    else if s[..|pat|] == pat then rep + s[|pat|..]
    else [s[0]] + ReplaceText(s[1..], pat, rep)
  }

  const ImagePrefix: string := "data:image/"

  /** The extension for an icon file: the `image/` subtype matched by
      `^data:image\/(\w+)` with "jpeg" turned into "jpg", else "png". */
  function Extension(uri: string): string
  {
    var word := if StartsWith(uri, ImagePrefix) then WordPrefix(uri[|ImagePrefix|..]) else [];
    if word != [] then ReplaceText(word, "jpeg", "jpg") else "png"
  }

  /** The word prefix stops exactly where a word ends. */
  lemma {:induction false} WordPrefixOfWord(w: string, rest: string)
    requires forall i :: 0 <= i < |w| ==> IsWordChar(w[i])
    requires rest == [] || !IsWordChar(rest[0])
    ensures WordPrefix(w + rest) == w
    decreases |w|
  {
    if w != [] {
      assert (w + rest)[1..] == w[1..] + rest;
      WordPrefixOfWord(w[1..], rest);
    }
  }

  /** A JPEG icon is stored as `.jpg`. */
  lemma JpegIsJpg(rest: string)
    requires rest == [] || !IsWordChar(rest[0])
    ensures Extension(ImagePrefix + "jpeg" + rest) == "jpg"
  {
    var uri := ImagePrefix + "jpeg" + rest;
    assert uri[..|ImagePrefix|] == ImagePrefix;
    assert uri[|ImagePrefix|..] == "jpeg" + rest;
    WordPrefixOfWord("jpeg", rest);
    assert ReplaceText("jpeg", "jpeg", "jpg") == "jpg" by {
      assert "jpeg"[..4] == "jpeg";
      assert "jpeg"[4..] == [];
    }
  }

  /** Anything that is not an `image/` URI with a subtype is stored as `.png`. */
  lemma NonImageIsPng(uri: string)
    requires !StartsWith(uri, ImagePrefix)
    ensures Extension(uri) == "png"
  {
  }

  /** `icon_${idx}.${ext}`. */
  function IconFilename(idx: nat, ext: string): string
  {
    "icon_" + NatToString(idx) + "." + ext
  }

  /** The number an icon file name carries. */
  function IconIndex(filename: string): nat
  {
    if |filename| < 5 then 0 else DigitsValue(DigitPrefix(filename[5..]))
  }

  lemma {:induction false} DigitPrefixStops(digits: string, rest: string)
    requires forall i :: 0 <= i < |digits| ==> IsDigit(digits[i])
    requires rest == [] || !IsDigit(rest[0])
    ensures DigitPrefix(digits + rest) == digits
    decreases |digits|
  {
    if digits != [] {
      assert (digits + rest)[1..] == digits[1..] + rest;
      DigitPrefixStops(digits[1..], rest);
    } else {
      assert digits + rest == rest;
    }
  }

  /** A file name gives back the number it was made from, so icons with
      different numbers never share a file. */
  lemma IconIndexOfFilename(idx: nat, ext: string)
    ensures IconIndex(IconFilename(idx, ext)) == idx
  {
    var digits := NatToString(idx);
    assert IconFilename(idx, ext)[5..] == digits + ("." + ext);
    DigitPrefixStops(digits, "." + ext);
    DigitsValueOfNatToString(idx);
  }

  /** One entry of the icon map: the generated file name and the URI. */
  datatype IconEntry = IconEntry(filename: string, uri: string)

  /** The map collectCustomIcons builds, in insertion order, for the given
      distinct URIs: the k-th URI gets number k. */
  function IconEntries(uris: seq<string>): seq<IconEntry>
  {
    seq(|uris|, k requires 0 <= k < |uris| => IconEntry(IconFilename(k, Extension(uris[k])), uris[k]))
  }

  function Uris(icons: seq<IconEntry>): seq<string>
  {
    seq(|icons|, k requires 0 <= k < |icons| => icons[k].uri)
  }

  function Filenames(icons: seq<IconEntry>): seq<string>
  {
    seq(|icons|, k requires 0 <= k < |icons| => icons[k].filename)
  }

  /** The icons the collector keeps, in order: non-empty `data:` URIs. */
  function CustomIcons(icons: seq<string>): (r: seq<string>)
    ensures forall x :: x in r <==> x in icons && IsBase64Icon(x)
  {
    if icons == [] then []
    else
      var last := icons[|icons| - 1];
      var rest := CustomIcons(icons[..|icons| - 1]);
      assert icons == icons[..|icons| - 1] + [last];
      if last != [] && IsBase64Icon(last) then rest + [last] else rest
  }

  function Logos(subs: seq<Subscription>): seq<string>
  {
    seq(|subs|, i requires 0 <= i < |subs| => subs[i].logo)
  }

  function MethodIcons(pms: seq<PaymentMethod>): seq<string>
  {
    seq(|pms|, i requires 0 <= i < |pms| => pms[i].icon)
  }

  /** What collectCustomIcons returns: the distinct custom icons of the
      subscriptions, then of the payment methods, numbered in that order. */
  function Collected(subs: seq<Subscription>, pms: seq<PaymentMethod>): seq<IconEntry>
  {
    IconEntries(Dedup(CustomIcons(Logos(subs)) + CustomIcons(MethodIcons(pms))))
  }

  /** No entry before position k holds the URI. */
  predicate FirstWith(icons: seq<IconEntry>, uri: string, k: nat)
    requires k <= |icons|
  {
    forall j :: 0 <= j < k ==> icons[j].uri != uri
  }

  /** addIcon: the file name already given to the URI, or a new entry with
      the next number. */
  method AddIcon(icons: seq<IconEntry>, uri: string) returns (next: seq<IconEntry>, filename: string)
    ensures uri in Uris(icons) ==> next == icons
    ensures uri in Uris(icons) ==>
      exists k :: 0 <= k < |icons| && icons[k].uri == uri && filename == icons[k].filename && FirstWith(icons, uri, k)
    ensures uri !in Uris(icons) ==>
      filename == IconFilename(|icons|, Extension(uri)) && next == icons + [IconEntry(filename, uri)]
  {
    var i := 0;
    while i < |icons|
      invariant 0 <= i <= |icons|
      invariant uri !in Uris(icons)[..i]
      invariant forall j :: 0 <= j < i ==> icons[j].uri != uri
    {
      if icons[i].uri == uri {
        assert Uris(icons)[i] == uri;
        return icons, icons[i].filename;
      }
      assert Uris(icons)[..i + 1] == Uris(icons)[..i] + [icons[i].uri];
      i := i + 1;
    }
    assert Uris(icons)[..i] == Uris(icons);
    filename := IconFilename(|icons|, Extension(uri));
    next := icons + [IconEntry(filename, uri)];
  }

  /** One more icon offered to the collector. */
  lemma CollectStep(u: seq<string>, x: string)
    ensures Uris(IconEntries(Dedup(u))) == Dedup(u)
    ensures IconEntries(Dedup(u + [x]))
              == if x in Dedup(u) then IconEntries(Dedup(u))
                 else IconEntries(Dedup(u)) + [IconEntry(IconFilename(|Dedup(u)|, Extension(x)), x)]
  {
    assert (u + [x])[..|u|] == u;
    EntriesAppend(Dedup(u), x);
  }

  /** A new URI gets the next number. */
  lemma EntriesAppend(d: seq<string>, x: string)
    ensures Uris(IconEntries(d)) == d
    ensures IconEntries(d + [x]) == IconEntries(d) + [IconEntry(IconFilename(|d|, Extension(x)), x)]
  {
  }

  lemma CustomIconsStep(icons: seq<string>, i: nat)
    requires i < |icons|
    ensures CustomIcons(icons[..i + 1])
              == if icons[i] != [] && IsBase64Icon(icons[i]) then CustomIcons(icons[..i]) + [icons[i]]
                 else CustomIcons(icons[..i])
  {
    assert icons[..i + 1][..i] == icons[..i];
  }

  /** collectCustomIcons: the subscriptions' logos, then the payment
      methods' icons, each offered to addIcon in order. */
  method CollectCustomIcons(subs: seq<Subscription>, pms: seq<PaymentMethod>) returns (icons: seq<IconEntry>)
    ensures icons == Collected(subs, pms)
  {
    assert Dedup<string>([]) == [];
    icons := AddIcons([], Logos(subs), []);
    assert [] + CustomIcons(Logos(subs)) == CustomIcons(Logos(subs));
    icons := AddIcons(icons, MethodIcons(pms), CustomIcons(Logos(subs)));
  }

  /** One loop of collectCustomIcons: every custom icon of `uris` offered to
      addIcon, after the icons `before` were offered. */
  method AddIcons(icons: seq<IconEntry>, uris: seq<string>, ghost before: seq<string>) returns (next: seq<IconEntry>)
    requires icons == IconEntries(Dedup(before))
    ensures next == IconEntries(Dedup(before + CustomIcons(uris)))
  {
    next := icons;
    var i := 0;
    NothingOffered(before, uris);
    while i < |uris|
      invariant 0 <= i <= |uris|
      invariant next == IconEntries(Dedup(before + CustomIcons(uris[..i])))
    {
      ghost var current := next;
      next := Offer(next, uris[i]);
      AddIconsStep(before, uris, i, current, next);
      i := i + 1;
    }
    assert uris[..i] == uris;
  }

  /** One URI offered to the collector: only a custom icon is added. */
  method Offer(icons: seq<IconEntry>, uri: string) returns (next: seq<IconEntry>)
    ensures !(uri != [] && IsBase64Icon(uri)) || uri in Uris(icons) ==> next == icons
    ensures uri != [] && IsBase64Icon(uri) && uri !in Uris(icons) ==>
      next == icons + [IconEntry(IconFilename(|icons|, Extension(uri)), uri)]
  {
    next := icons;
    if uri != [] && IsBase64Icon(uri) {
      var filename;
      next, filename := AddIcon(icons, uri);
    }
  }

  lemma NothingOffered(before: seq<string>, uris: seq<string>)
    ensures before + CustomIcons(uris[..0]) == before
  {
    assert uris[..0] == [];
  }

  /** One turn of the loop keeps the map equal to that of the URIs offered so far. */
  lemma AddIconsStep(before: seq<string>, uris: seq<string>, i: nat, icons: seq<IconEntry>, next: seq<IconEntry>)
    requires i < |uris|
    requires icons == IconEntries(Dedup(before + CustomIcons(uris[..i])))
    requires !(uris[i] != [] && IsBase64Icon(uris[i])) ==> next == icons
    requires uris[i] != [] && IsBase64Icon(uris[i]) ==>
      (uris[i] in Uris(icons) ==> next == icons)
      && (uris[i] !in Uris(icons) ==> next == icons + [IconEntry(IconFilename(|icons|, Extension(uris[i])), uris[i])])
    ensures next == IconEntries(Dedup(before + CustomIcons(uris[..i + 1])))
  {
    AddStep(before, uris, i);
    if uris[i] != [] && IsBase64Icon(uris[i]) {
      AddIconStep(icons, Dedup(before + CustomIcons(uris[..i])), uris[i], next);
    }
  }

  /** What addIcon does to the map of the distinct URIs `u`. */
  lemma AddIconStep(icons: seq<IconEntry>, u: seq<string>, uri: string, next: seq<IconEntry>)
    requires icons == IconEntries(u) && Uris(icons) == u
    requires uri in Uris(icons) ==> next == icons
    requires uri !in Uris(icons) ==> next == icons + [IconEntry(IconFilename(|icons|, Extension(uri)), uri)]
    ensures next == if uri in u then IconEntries(u) else IconEntries(u) + [IconEntry(IconFilename(|u|, Extension(uri)), uri)]
  {
  }

  /** The collector's map after one more URI. */
  lemma AddStep(before: seq<string>, uris: seq<string>, i: nat)
    requires i < |uris|
    ensures var u := Dedup(before + CustomIcons(uris[..i]));
      && Uris(IconEntries(u)) == u
      && IconEntries(Dedup(before + CustomIcons(uris[..i + 1])))
           == if !(uris[i] != [] && IsBase64Icon(uris[i])) || uris[i] in u then IconEntries(u)
              else IconEntries(u) + [IconEntry(IconFilename(|u|, Extension(uris[i])), uris[i])]
  {
    var prefix := before + CustomIcons(uris[..i]);
    CustomIconsStep(uris, i);
    CollectStep(prefix, uris[i]);
    if uris[i] != [] && IsBase64Icon(uris[i]) {
      assert before + CustomIcons(uris[..i + 1]) == prefix + [uris[i]];
    } else {
      assert before + CustomIcons(uris[..i + 1]) == prefix;
    }
  }

  /** Only custom icons are collected, each exactly once, and every custom
      logo and payment-method icon is collected. */
  lemma CollectedIconsAreTheCustomOnes(subs: seq<Subscription>, pms: seq<PaymentMethod>)
    ensures NoDuplicates(Uris(Collected(subs, pms)))
    ensures forall x :: x in Uris(Collected(subs, pms)) <==>
              IsBase64Icon(x) && (x in Logos(subs) || x in MethodIcons(pms))
  {
    var u := Dedup(CustomIcons(Logos(subs)) + CustomIcons(MethodIcons(pms)));
    CollectStep(u, []);
    assert Uris(IconEntries(u)) == u;
  }

  /** The collected files are numbered 0, 1, 2, ... in order, so no two
      icons share a file name. */
  lemma CollectedFilenamesNumbered(subs: seq<Subscription>, pms: seq<PaymentMethod>)
    ensures forall k :: 0 <= k < |Collected(subs, pms)| ==> IconIndex(Collected(subs, pms)[k].filename) == k
    ensures NoDuplicates(Filenames(Collected(subs, pms)))
  {
    var icons := Collected(subs, pms);
    forall k | 0 <= k < |icons|
      ensures IconIndex(icons[k].filename) == k
    {
      IconIndexOfFilename(k, Extension(icons[k].uri));
    }
    forall i, j | 0 <= i < j < |icons|
      ensures Filenames(icons)[i] != Filenames(icons)[j]
    {
      assert IconIndex(icons[i].filename) != IconIndex(icons[j].filename);
    }
  }

  // ---------------------------------------------------------------------
  // Substitution both ways
  // ---------------------------------------------------------------------

  /** `new Map(pairs)`: later pairs overwrite earlier ones. */
  function MapOf(pairs: seq<(string, string)>): (m: map<string, string>)
    ensures forall k :: k in m <==> exists i :: 0 <= i < |pairs| && pairs[i].0 == k
  {
    if pairs == [] then map[]
    else
      var last := pairs[|pairs| - 1];
      var m := MapOf(pairs[..|pairs| - 1]);
      assert forall i :: 0 <= i < |pairs| - 1 ==> pairs[..|pairs| - 1][i] == pairs[i];
      m[last.0 := last.1]
  }

  /** With distinct keys every pair is found in the map. */
  lemma {:induction false} MapOfDistinct(pairs: seq<(string, string)>, k: nat)
    requires k < |pairs|
    requires forall i, j :: 0 <= i < j < |pairs| ==> pairs[i].0 != pairs[j].0
    ensures pairs[k].0 in MapOf(pairs) && MapOf(pairs)[pairs[k].0] == pairs[k].1
    decreases |pairs|
  {
    var prefix := pairs[..|pairs| - 1];
    if k < |pairs| - 1 {
      assert prefix[k] == pairs[k];
      MapOfDistinct(prefix, k);
    }
  }

  /** The `reverse` map of replaceIconsWithPaths: URI to archive path. */
  function ReverseMap(icons: seq<IconEntry>): map<string, string>
  {
    MapOf(seq(|icons|, k requires 0 <= k < |icons| => (icons[k].uri, "icons/" + icons[k].filename)))
  }

  /** `uri.split(",")[1] || ""`: the base64 text dataUriToUint8Array decodes. */
  function Base64Part(uri: string): (r: string)
    ensures ',' !in r
  {
    var parts := SplitOn(uri, ',');
    if |parts| >= 2 then parts[1] else ""
  }

  /** `filename.split(".").pop()?.toLowerCase() || "png"`. */
  function FileExtension(filename: string): (r: string)
    ensures r != []
  {
    var parts := SplitOn(filename, '.');
    var ext := LowerAscii(parts[|parts| - 1]);
    if ext == "" then "png" else ext
  }

  /** The mime type uint8ArrayToDataUri writes for an extension; unknown
      extensions fall back to image/png. */
  function MimeFor(ext: string): string
  {
    if ext == "png" then "image/png"
    else if ext == "jpg" || ext == "jpeg" then "image/jpeg"
    else if ext == "svg" then "image/svg+xml"
    else if ext == "webp" then "image/webp"
    else if ext == "gif" then "image/gif"
    else "image/png"
  }

  /** uint8ArrayToDataUri: the URI rebuilt from a file's name and the
      base64 text of its bytes. */
  function ImportedUri(filename: string, base64: string): string
  {
    "data:" + MimeFor(FileExtension(filename)) + ";base64," + base64
  }

  /** The map importFromSubly builds from the archive's `icons/` folder.
      Each file holds the bytes `atob` decoded from its URI's base64 part;
      `reencode` is `btoa` after `atob`, the text those bytes encode back to. */
  function ArchiveMap(icons: seq<IconEntry>, reencode: string -> string): map<string, string>
  {
    MapOf(seq(|icons|, k requires 0 <= k < |icons| =>
      ("icons/" + icons[k].filename, ImportedUri(icons[k].filename, reencode(Base64Part(icons[k].uri))))))
  }

  /** The URI an exported icon comes back as: the mime type follows the
      file extension chosen at export, the payload is re-encoded. */
  function RestoredUri(uri: string, reencode: string -> string): string
  {
    "data:" + MimeFor(LowerAscii(Extension(uri))) + ";base64," + reencode(Base64Part(uri))
  }

  /** Whether an icon survives the trip through the archive unchanged. */
  predicate ComesBack(uri: string, reencode: string -> string)
  {
    RestoredUri(uri, reencode) == uri
  }

  /** Replacing text keeps out a character that neither the text nor the
      replacement contains. */
  lemma {:induction false} ReplaceTextAvoids(s: string, pat: string, rep: string, c: char)
    requires pat != [] && c !in s && c !in rep
    ensures c !in ReplaceText(s, pat, rep)
    decreases |s|
  {
    if |s| >= |pat| && s[..|pat|] != pat {
      ReplaceTextAvoids(s[1..], pat, rep, c);
    }
  }

  /** The extension read back from a generated file name selects the same
      mime type as the extension the file was written with. */
  lemma FileExtensionOfIconFilename(idx: nat, uri: string)
    ensures MimeFor(FileExtension(IconFilename(idx, Extension(uri)))) == MimeFor(LowerAscii(Extension(uri)))
  {
    var ext := Extension(uri);
    var word := if StartsWith(uri, ImagePrefix) then WordPrefix(uri[|ImagePrefix|..]) else [];
    if word != [] {
      assert forall i :: 0 <= i < |word| ==> IsWordChar(word[i]);
      ReplaceTextAvoids(word, "jpeg", "jpg", '.');
    }
    assert '.' !in ext;
    var stem := "icon_" + NatToString(idx);
    assert '.' !in stem by {
      assert forall i :: 5 <= i < |stem| ==> IsDigit(stem[i]);
    }
    assert IconFilename(idx, ext) == stem + ['.'] + ext;
    SplitOnPrefix(stem, ext, '.');
    SplitOnNoSeparator(ext, '.');
  }

  /** The extension of an `image/` URI whose subtype is the word `word`. */
  lemma {:induction false} ExtensionOfImage(word: string, rest: string)
    requires word != [] && forall i :: 0 <= i < |word| ==> IsWordChar(word[i])
    requires rest == [] || !IsWordChar(rest[0])
    ensures Extension(ImagePrefix + word + rest) == ReplaceText(word, "jpeg", "jpg")
  {
    var uri := ImagePrefix + word + rest;
    assert uri[..|ImagePrefix|] == ImagePrefix;
    assert uri[|ImagePrefix|..] == word + rest;
    WordPrefixOfWord(word, rest);
    var w := WordPrefix(uri[|ImagePrefix|..]);
    assert w == word;
    assert StartsWith(uri, ImagePrefix);
    assert Extension(uri) == ReplaceText(w, "jpeg", "jpg");
  }

  /** The base64 part of a URI with exactly one comma is what follows it. */
  lemma {:induction false} Base64PartAfterComma(head: string, payload: string)
    requires ',' !in head && ',' !in payload
    ensures Base64Part(head + [','] + payload) == payload
  {
    SplitOnPrefix(head, payload, ',');
    SplitOnNoSeparator(payload, ',');
  }

  /** An `image/` icon of subtype `word` with a one-comma base64 payload
      comes back as the URI written with the mime type its stored extension
      selects. */
  lemma {:induction false} RestoredImage(uri: string, word: string, params: string, payload: string, reencode: string -> string)
    requires word != [] && forall i :: 0 <= i < |word| ==> IsWordChar(word[i])
    requires params == [] || !IsWordChar(params[0])
    requires ',' !in params && ',' !in payload && reencode(payload) == payload
    requires uri == ImagePrefix + word + params + "," + payload
    ensures RestoredUri(uri, reencode)
            == "data:" + MimeFor(LowerAscii(ReplaceText(word, "jpeg", "jpg"))) + ";base64," + payload
  {
    ImageExtension(uri, word, params, payload);
    ImageBase64Part(uri, word, params, payload);
    RestoredFrom(uri, ReplaceText(word, "jpeg", "jpg"), payload, reencode);
  }

  /** An `image/x-icon` icon comes back as `image/png`: its stored
      extension is `x`, which no mime type is listed for. */
  lemma {:induction false} IconTypeBecomesPng(uri: string, payload: string, reencode: string -> string)
    requires uri == "data:image/x-icon;base64," + payload
    requires ',' !in payload && reencode(payload) == payload
    ensures RestoredUri(uri, reencode) == "data:" + MimeFor("png") + ";base64," + payload
  {
    XIconParts(payload);
    assert MimeFor(LowerAscii(ReplaceText("x", "jpeg", "jpg"))) == MimeFor("png") by {
      assert ReplaceText("x", "jpeg", "jpg") == "x";
      assert LowerAscii("x") == "x";
    }
    RestoredImage(uri, "x", "-icon;base64", payload, reencode);
  }

  /** An `image/x-icon` URI read as subtype word, parameters and payload. */
  lemma {:induction false} XIconParts(payload: string)
    ensures "data:image/x-icon;base64," + payload == ImagePrefix + "x" + "-icon;base64" + "," + payload
  {
    assert "data:image/x-icon;base64," == ImagePrefix + "x" + "-icon;base64" + ",";
  }

  /** The restored URI in terms of the extension and base64 part read from
      the original. */
  lemma {:induction false} RestoredFrom(uri: string, ext: string, payload: string, reencode: string -> string)
    requires Extension(uri) == ext && Base64Part(uri) == payload && reencode(payload) == payload
    ensures RestoredUri(uri, reencode) == "data:" + MimeFor(LowerAscii(ext)) + ";base64," + payload
  {
  }

  /** The extension of an `image/` icon with parameters and a payload. */
  lemma {:induction false} ImageExtension(uri: string, word: string, params: string, payload: string)
    requires word != [] && forall i :: 0 <= i < |word| ==> IsWordChar(word[i])
    requires params == [] || !IsWordChar(params[0])
    requires uri == ImagePrefix + word + params + "," + payload
    ensures Extension(uri) == ReplaceText(word, "jpeg", "jpg")
  {
    RegroupTail(ImagePrefix + word, params, payload);
    ExtensionOfImage(word, params + "," + payload);
  }

  /** Regrouping the comma and payload after a URI's head. */
  lemma {:induction false} RegroupTail(head: string, params: string, payload: string)
    ensures head + params + "," + payload == head + (params + "," + payload)
  {
    assert |head + params + "," + payload| == |head + (params + "," + payload)|;
  }

  /** The base64 part of an `image/` icon whose subtype and parameters hold
      no comma. */
  lemma {:induction false} ImageBase64Part(uri: string, word: string, params: string, payload: string)
    requires forall i :: 0 <= i < |word| ==> IsWordChar(word[i])
    requires ',' !in params && ',' !in payload
    requires uri == ImagePrefix + word + params + "," + payload
    ensures Base64Part(uri) == payload
  {
    assert ',' !in ImagePrefix + word by {
      forall i | 0 <= i < |word| ensures word[i] != ',' {
        assert IsWordChar(word[i]);
      }
    }
    assert ImagePrefix + word + params + "," == ImagePrefix + word + params + [','];
    Base64PartAfterComma(ImagePrefix + word + params, payload);
  }

  /** One icon through a substitution map: a non-empty icon the map holds is
      replaced, anything else is kept. */
  function Substitute(icon: string, m: map<string, string>): string
  {
    if icon != [] && icon in m then m[icon] else icon
  }

  function WithLogos(subs: seq<Subscription>, m: map<string, string>): (r: seq<Subscription>)
    ensures |r| == |subs|
  {
    seq(|subs|, i requires 0 <= i < |subs| => subs[i].(logo := Substitute(subs[i].logo, m)))
  }

  function WithIcons(pms: seq<PaymentMethod>, m: map<string, string>): (r: seq<PaymentMethod>)
    ensures |r| == |pms|
  {
    seq(|pms|, i requires 0 <= i < |pms| => pms[i].(icon := Substitute(pms[i].icon, m)))
  }

  /** replaceIconsWithPaths, on a copy of the data. */
  function ReplaceIconsWithPaths(subs: seq<Subscription>, pms: seq<PaymentMethod>, icons: seq<IconEntry>)
    : (seq<Subscription>, seq<PaymentMethod>)
  {
    var reverse := ReverseMap(icons);
    (WithLogos(subs, reverse), WithIcons(pms, reverse))
  }

  /** restoreIconsFromArchive, in place. */
  method RestoreIconsFromArchive(subs: array<Subscription>, pms: array<PaymentMethod>, archive: map<string, string>)
    modifies subs, pms
    ensures subs[..] == WithLogos(old(subs[..]), archive)
    ensures pms[..] == WithIcons(old(pms[..]), archive)
  {
    var i := 0;
    while i < subs.Length
      invariant 0 <= i <= subs.Length
      invariant subs[..i] == WithLogos(old(subs[..]), archive)[..i]
      invariant subs[i..] == old(subs[..])[i..]
      invariant pms[..] == old(pms[..])
    {
      var logo := subs[i].logo;
      if logo != [] && logo in archive {
        subs[i] := subs[i].(logo := archive[logo]);
      }
      assert subs[..i + 1] == subs[..i] + [subs[i]];
      assert old(subs[..])[i..][0] == old(subs[..])[i];
      assert subs[i + 1..] == old(subs[..])[i + 1..] by {
        assert subs[i + 1..] == subs[i..][1..];
      }
      i := i + 1;
    }
    var j := 0;
    while j < pms.Length
      invariant 0 <= j <= pms.Length
      invariant subs[..] == WithLogos(old(subs[..]), archive)
      invariant pms[..j] == WithIcons(old(pms[..]), archive)[..j]
      invariant pms[j..] == old(pms[..])[j..]
    {
      var icon := pms[j].icon;
      if icon != [] && icon in archive {
        pms[j] := pms[j].(icon := archive[icon]);
      }
      assert pms[..j + 1] == pms[..j] + [pms[j]];
      assert old(pms[..])[j..][0] == old(pms[..])[j];
      assert pms[j + 1..] == old(pms[..])[j + 1..] by {
        assert pms[j + 1..] == pms[j..][1..];
      }
      j := j + 1;
    }
  }

  /** In the collected map a URI leads to its archive path, and the path
      leads to the URI the import rebuilds from that file. */
  lemma PathsLeadBack(subs: seq<Subscription>, pms: seq<PaymentMethod>, x: string, reencode: string -> string)
    requires x in Uris(Collected(subs, pms))
    ensures x in ReverseMap(Collected(subs, pms))
    ensures var p := ReverseMap(Collected(subs, pms))[x];
      p != [] && p in ArchiveMap(Collected(subs, pms), reencode)
      && ArchiveMap(Collected(subs, pms), reencode)[p] == RestoredUri(x, reencode)
  {
    var icons := Collected(subs, pms);
    CollectedIconsAreTheCustomOnes(subs, pms);
    CollectedFilenamesNumbered(subs, pms);
    var k := IndexOf(Uris(icons), x);
    assert icons[k].uri == x;
    EntryInBothMaps(icons, k, reencode);
    assert icons[k].filename == IconFilename(k, Extension(x));
    FileExtensionOfIconFilename(k, x);
  }

  /** With distinct URIs and distinct file names, each entry is in both maps. */
  lemma EntryInBothMaps(icons: seq<IconEntry>, k: nat, reencode: string -> string)
    requires k < |icons|
    requires NoDuplicates(Uris(icons)) && NoDuplicates(Filenames(icons))
    ensures icons[k].uri in ReverseMap(icons) && ReverseMap(icons)[icons[k].uri] == "icons/" + icons[k].filename
    ensures var p := "icons/" + icons[k].filename;
      p in ArchiveMap(icons, reencode)
      && ArchiveMap(icons, reencode)[p] == ImportedUri(icons[k].filename, reencode(Base64Part(icons[k].uri)))
  {
    var rev := seq(|icons|, k requires 0 <= k < |icons| => (icons[k].uri, "icons/" + icons[k].filename));
    var arch := seq(|icons|, k requires 0 <= k < |icons| =>
      ("icons/" + icons[k].filename, ImportedUri(icons[k].filename, reencode(Base64Part(icons[k].uri)))));
    forall i, j | 0 <= i < j < |icons|
      ensures rev[i].0 != rev[j].0 && arch[i].0 != arch[j].0
    {
      assert Uris(icons)[i] != Uris(icons)[j];
      assert Filenames(icons)[i] != Filenames(icons)[j];
      assert arch[i].0[6..] == icons[i].filename;
      assert arch[j].0[6..] == icons[j].filename;
    }
    MapOfDistinct(rev, k);
    MapOfDistinct(arch, k);
  }

  /** Exporting to a .subly archive and importing it back gives every logo
      and icon back, provided every custom icon survives the re-encoding
      (ComesBack; RestoredImage says what an `image/` icon comes back as)
      and no icon of the data already equals one of the archive paths. */
  lemma SublyIconsRoundTrip(subs: seq<Subscription>, pms: seq<PaymentMethod>, reencode: string -> string)
    requires forall s :: s in subs && s.logo != [] && IsBase64Icon(s.logo) ==> ComesBack(s.logo, reencode)
    requires forall p :: p in pms && p.icon != [] && IsBase64Icon(p.icon) ==> ComesBack(p.icon, reencode)
    requires forall s :: s in subs ==> s.logo !in ArchiveMap(Collected(subs, pms), reencode)
    requires forall p :: p in pms ==> p.icon !in ArchiveMap(Collected(subs, pms), reencode)
    ensures var out := ReplaceIconsWithPaths(subs, pms, Collected(subs, pms));
      && WithLogos(out.0, ArchiveMap(Collected(subs, pms), reencode)) == subs
      && WithIcons(out.1, ArchiveMap(Collected(subs, pms), reencode)) == pms
  {
    var icons := Collected(subs, pms);
    var rev := ReverseMap(icons);
    var arch := ArchiveMap(icons, reencode);
    CollectedIconsAreTheCustomOnes(subs, pms);
    forall x | x in rev
      ensures x in Uris(icons)
    {
      var pairs := seq(|icons|, k requires 0 <= k < |icons| => (icons[k].uri, "icons/" + icons[k].filename));
      var i :| 0 <= i < |pairs| && pairs[i].0 == x;
      assert Uris(icons)[i] == x;
    }
    forall i | 0 <= i < |subs|
      ensures Substitute(Substitute(subs[i].logo, rev), arch) == subs[i].logo
    {
      var x := subs[i].logo;
      assert subs[i] in subs;
      assert Logos(subs)[i] == x;
      if x != [] && IsBase64Icon(x) {
        PathsLeadBack(subs, pms, x, reencode);
      }
    }
    forall i | 0 <= i < |pms|
      ensures Substitute(Substitute(pms[i].icon, rev), arch) == pms[i].icon
    {
      var x := pms[i].icon;
      assert pms[i] in pms;
      assert MethodIcons(pms)[i] == x;
      if x != [] && IsBase64Icon(x) {
        PathsLeadBack(subs, pms, x, reencode);
      }
    }
  }
}
