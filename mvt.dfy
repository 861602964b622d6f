/**
 * The Mapbox vector tile provider of `pygeoapi/provider/mvt.py`. Every
 * operation reads the configuration copied at construction and builds
 * strings from it; nothing is changed.
 */
module Mvt {
  import opened Wrappers
  import opened Strings
  import opened Urls
  import opened Tile

  /** The marker that ends the layer path in the data URL template. */
  const ZxyMarker: string := "/{z}/{x}/{y}"

  /** The placeholders of a tile URL template. */
  const SetIdSegment: string := "{tileMatrixSetId}"
  const MatrixSegment: string := "{tileMatrix}"
  const RowSegment: string := "{tileRow}"
  const ColSegment: string := "{tileCol}"

  /** `{tileMatrix}/{tileRow}/{tileCol}`: the part of a tile URL template that names one tile of a tile matrix. */
  const TileMatrixMarker: string := MatrixSegment + "/" + RowSegment + "/" + ColSegment

  /** `/tiles/{tileMatrixSetId}/`: the directory of one tile matrix set's tiles. */
  const SetIdDirectory: string := "/" + "tiles" + "/" + SetIdSegment + "/"

  /** `/tiles/{tileMatrixSetId}/{tileMatrix}/{tileRow}/{tileCol}`: what follows the layer path in the default service path, before the tile type. */
  const TilesTemplate: string := SetIdDirectory + TileMatrixMarker

  const ItemTitle: string := "This collection as Mapbox vector tiles"
  const MetadataTitle: string := "Metadata for this collection in the TileJSON format"

  /** The two tile matrix sets the provider knows, in the order it lists them. */
  const WorldCrs84Quad: TileMatrixSetLink := TileMatrixSetLink("WorldCRS84Quad",
    "http://schemas.opengis.net/tms/1.0/json/examples/WorldCRS84Quad.json")
  const WebMercatorQuad: TileMatrixSetLink := TileMatrixSetLink("WebMercatorQuad",
    "http://schemas.opengis.net/tms/1.0/json/examples/WebMercatorQuad.json")
  const Catalog: seq<TileMatrixSetLink> := [WorldCrs84Quad, WebMercatorQuad]

  /** Python's truth value of an optional string argument: `None` and `""` are false. */
  predicate Given(s: Option<string>)
  {
    s.Some? && s.value != ""
  }

  /** `s[1:]`, which is empty for an empty `s`. */
  function DropFirst(s: string): (r: string)
    ensures |s| > 0 ==> [s[0]] + r == s
    ensures |s| == 0 ==> r == ""
  {
    if |s| == 0 then "" else s[1..]
  }

  /** `urlparse(self.data).path`. */
  function DataPath(cfg: ProviderConfig): string
  {
    UrlParse(cfg.data, "").path
  }

  /** `'{}://{}'.format(url.scheme, url.netloc)` for `url = urlparse(self.data)`. */
  function DataOrigin(cfg: ProviderConfig): string
  {
    var url := UrlParse(cfg.data, "");
    url.scheme + "://" + url.netloc
  }

  /** `path.split("/{z}/{x}/{y}")[0][1:]`: the path before the first marker, minus its first character. */
  function LayerOfPath(path: string): (r: string)
    ensures |path| == 0 ==> r == ""
    ensures |path| > 0 ==> 1 + |r| <= |path| && r == path[1..1 + |r|]
    ensures |path| > 0 && Find(path, ZxyMarker).None? ==> |r| == |path| - 1
    ensures Find(path, ZxyMarker).Some? && Find(path, ZxyMarker).value > 0 ==>
      Find(path, ZxyMarker).value == 1 + |r|
    ensures Find(path, ZxyMarker) == Some(0) ==> r == ""
  {
    var before := Before(path, ZxyMarker);
    assert |path| > 0 && |before| > 0 ==> before[1..] == path[1..|before|];
    DropFirst(before)
  }

  /** `get_layer`. */
  function GetLayer(cfg: ProviderConfig): (r: string)
    ensures |DataPath(cfg)| == 0 ==> r == ""
    ensures |DataPath(cfg)| > 0 ==> 1 + |r| <= |DataPath(cfg)| && r == DataPath(cfg)[1..1 + |r|]
  {
    LayerOfPath(DataPath(cfg))
  }

  /** The list comprehension of `get_tiling_schemes`: the entries whose tile matrix set is in `schemes`. */
  function FilterBySchemes(entries: seq<TileMatrixSetLink>, schemes: seq<string>): (r: seq<TileMatrixSetLink>)
    ensures |r| <= |entries|
    ensures forall e :: e in r <==> e in entries && e.tileMatrixSet in schemes
    ensures IsSubsequence(r, entries)
    ensures forall e :: multiset(r)[e] == if e.tileMatrixSet in schemes then multiset(entries)[e] else 0
  {
    if |entries| == 0 then []
    else
      assert entries == [entries[0]] + entries[1..];
      if entries[0].tileMatrixSet in schemes then [entries[0]] + FilterBySchemes(entries[1..], schemes)
      else FilterBySchemes(entries[1..], schemes)
  }

  /** `r` is `s` with some elements left out and the rest in their order. */
  predicate IsSubsequence<T(==)>(r: seq<T>, s: seq<T>)
  {
    if |r| == 0 then true
    else if |s| == 0 then false
    else (r[0] == s[0] && IsSubsequence(r[1..], s[1..])) || IsSubsequence(r, s[1..])
  }

  /**
   * `get_tiling_schemes` as written: it reads `self.schemes`, an attribute
   * construction never sets (`schemesAttribute` is `None` unless a caller
   * assigned one), so on a constructed provider it raises `AttributeError`.
   */
  function TilingSchemesAsWritten(schemesAttribute: Option<seq<string>>): (r: Result<seq<TileMatrixSetLink>, Error>)
    ensures schemesAttribute.None? <==> r.Failure?
    ensures r.Failure? ==> r.error == AttributeError("schemes")
    ensures r.Success? ==> r.value == FilterBySchemes(Catalog, schemesAttribute.value)
  {
    match schemesAttribute
    case None => Failure(AttributeError("schemes"))
    case Some(schemes) => Success(FilterBySchemes(Catalog, schemes))
  }

  /** `get_tiling_schemes` reading the `tiling_schemes` that construction stores. */
  function GetTilingSchemes(cfg: ProviderConfig): (r: seq<TileMatrixSetLink>)
    ensures |r| <= 2
    ensures forall e :: e in r <==> e in Catalog && e.tileMatrixSet in cfg.tilingSchemes
    ensures IsSubsequence(r, Catalog)
  {
    FilterBySchemes(Catalog, cfg.tilingSchemes)
  }

  /** `baseurl or '{}://{}'.format(url.scheme, url.netloc)`. */
  function EffectiveBaseUrl(cfg: ProviderConfig, baseurl: Option<string>): (r: string)
    ensures Given(baseurl) ==> r == baseurl.value
    ensures !Given(baseurl) ==> r == DataOrigin(cfg)
  {
    if Given(baseurl) then baseurl.value else DataOrigin(cfg)
  }

  /** `tile_type or self.format_type`. */
  function EffectiveTileType(cfg: ProviderConfig, tileType: Option<string>): (r: string)
    ensures Given(tileType) ==> r == tileType.value
    ensures !Given(tileType) ==> r == cfg.formatType
  {
    if Given(tileType) then tileType.value else cfg.formatType
  }

  /** The default service path: the layer path, the tile template, then the tile type with no separator. */
  function DefaultServicePath(cfg: ProviderConfig, tileType: string): (r: string)
    ensures Find(DataPath(cfg), ZxyMarker).None? ==> r == DataPath(cfg) + TilesTemplate + tileType
    ensures Find(DataPath(cfg), ZxyMarker).Some? ==>
      r == DataPath(cfg)[..Find(DataPath(cfg), ZxyMarker).value] + TilesTemplate + tileType
  {
    Before(DataPath(cfg), ZxyMarker) + TilesTemplate + tileType
  }

  /** `servicepath or <the default service path>`. */
  function EffectiveServicePath(cfg: ProviderConfig, servicepath: Option<string>, tileType: Option<string>): (r: string)
    ensures Given(servicepath) ==> r == servicepath.value
    ensures !Given(servicepath) ==> r == DefaultServicePath(cfg, EffectiveTileType(cfg, tileType))
  {
    if Given(servicepath) then servicepath.value else DefaultServicePath(cfg, EffectiveTileType(cfg, tileType))
  }

  /** `service_metadata_url`: `metadata` resolved against the service URL cut before its first tile-matrix marker. */
  function MetadataUrl(serviceUrl: string): (r: string)
    ensures Find(serviceUrl, TileMatrixMarker).None? ==> r == UrlJoin(serviceUrl, "metadata")
    ensures Find(serviceUrl, TileMatrixMarker).Some? ==>
      r == UrlJoin(serviceUrl[..Find(serviceUrl, TileMatrixMarker).value], "metadata")
  {
    UrlJoin(Before(serviceUrl, TileMatrixMarker), "metadata")
  }

  /**
   * `get_tiles_service`: the tile link, templated, then the TileJSON metadata
   * link. `dirpath` is accepted and not used.
   */
  function GetTilesService(cfg: ProviderConfig, baseurl: Option<string>, servicepath: Option<string>,
                           dirpath: Option<string>, tileType: Option<string>): (r: ServiceDescription)
    ensures |r.links| == 2
    ensures r.links[0] == Link(cfg.mimetype, "item", ItemTitle,
      UrlJoin(EffectiveBaseUrl(cfg, baseurl), EffectiveServicePath(cfg, servicepath, tileType)), true)
    ensures r.links[1] == Link("application/json", "describedby", MetadataTitle,
      MetadataUrl(r.links[0].href) + "?f=json", true)
  {
    var serviceUrl := UrlJoin(EffectiveBaseUrl(cfg, baseurl), EffectiveServicePath(cfg, servicepath, tileType));
    ServiceDescription([
      Link(cfg.mimetype, "item", ItemTitle, serviceUrl, true),
      Link("application/json", "describedby", MetadataTitle, MetadataUrl(serviceUrl) + "?f=json", true)
    ])
  }

  /** `format_` after `get_tiles` has replaced `"mvt"` by the configured format. */
  function TileFormat(cfg: ProviderConfig, format: Option<string>): (r: Option<string>)
    ensures format == Some("mvt") ==> r == Some(cfg.formatType)
    ensures format != Some("mvt") ==> r == format
  {
    if format == Some("mvt") then Some(cfg.formatType) else format
  }

  /** The number a text of decimal digits spells, read left to right. */
  function DigitsValue(s: string): int
  {
    if |s| == 0 then 0 else 10 * DigitsValue(s[..|s| - 1]) + (s[|s| - 1] as int - 48)
  }

  /** The decimal digits of a natural number, as `str` writes them. */
  function NatDigits(n: nat): (r: string)
    ensures |r| >= 1
    ensures forall k :: 0 <= k < |r| ==> '0' <= r[k] <= '9'
    ensures |r| > 1 ==> r[0] != '0'
    ensures DigitsValue(r) == n
  {
    if n < 10 then [(48 + n) as char]
    else
      var r := NatDigits(n / 10) + [(48 + n % 10) as char];
      assert r[..|r| - 1] == NatDigits(n / 10);
      r
  }

  /** `str(n)` for an integer: an optional minus sign, then the digits. */
  function IntText(n: int): (r: string)
    ensures |r| >= 1 && '/' !in r
    ensures var d := if n < 0 then 1 else 0;
      && |r| > d
      && (n < 0 ==> r[0] == '-')
      && (forall k :: d <= k < |r| ==> '0' <= r[k] <= '9')
      && (|r| > d + 1 ==> r[d] != '0')
      && DigitsValue(r[d..]) == if n < 0 then -n else n
  {
    if n < 0 then
      var r := "-" + NatDigits(-n);
      assert r[1..] == NatDigits(-n);
      r
    else
      var r := NatDigits(n);
      assert r[0..] == r;
      r
  }

  /** How `str.format` renders an optional argument: `None` becomes `"None"`. */
  function OptText(s: Option<string>): string
  {
    match s case Some(v) => v case None => "None"
  }

  function OptIntText(n: Option<int>): (r: string)
    ensures '/' !in r
  {
    match n case Some(v) => IntText(v) case None => "None"
  }

  /**
   * The URL `get_tiles` requests: `{base_url}/{lyr}/{z}/{y}/{x}.{f}` on the
   * data URL's origin, with `y` before `x`.
   */
  function TileRequestUrl(cfg: ProviderConfig, layer: Option<string>, z: Option<int>, y: Option<int>,
                          x: Option<int>, format: Option<string>): (r: string)
    ensures DataOrigin(cfg) + "/" <= r
  {
    RequestUrl(DataOrigin(cfg), OptText(layer), OptIntText(z), OptIntText(y), OptIntText(x),
               OptText(TileFormat(cfg, format)))
  }

  /** `{base_url}/{lyr}/{z}/{y}/{x}.{f}` once every argument is text. */
  function RequestUrl(origin: string, lyr: string, z: string, y: string, x: string, f: string): (r: string)
    ensures origin + "/" <= r
    ensures |r| >= |"." + f| && r[|r| - |"." + f|..] == "." + f
  {
    OriginPrefix(origin + "/", lyr, z, y, x, f);
    ExtensionSuffix(origin + "/" + lyr + "/" + z + "/" + y + "/" + x, f);
    origin + "/" + lyr + "/" + z + "/" + y + "/" + x + "." + f
  }

  /** The request URL keeps the `<origin>/` it starts with. */
  lemma OriginPrefix(head: string, a: string, b: string, c: string, d: string, f: string)
    ensures head <= head + a + "/" + b + "/" + c + "/" + d + "." + f
  {
    var u := head + a + "/" + b + "/" + c + "/" + d + "." + f;
    assert u == head + (a + "/" + b + "/" + c + "/" + d + "." + f);
  }

  /** The request URL ends with `.<format>`. */
  lemma ExtensionSuffix(body: string, f: string)
    ensures var u := body + "." + f; |u| >= |"." + f| && u[|u| - |"." + f|..] == "." + f
  {
    var u := body + "." + f;
    assert u == body + ("." + f);
  }

  /** `get_metadata`: the minimal TileJSON document, whatever `tilejson` is. */
  function GetMetadata(tilejson: bool): (r: map<string, string>)
    ensures r.Keys == {"tilejson"} && r["tilejson"] == "3.0.0"
  {
    map["tilejson" := "3.0.0"]
  }

  // ---------------------------------------------------------------------------
  // Properties

  /**
   * For a data URL `scheme://netloc/<layer>/{z}/{x}/{y}...`, `get_layer` is
   * exactly the layer name.
   */
  lemma LayerOfTemplate(cfg: ProviderConfig, scheme: string, netloc: string, layer: string, tail: string)
    requires cfg.data == scheme + "://" + netloc + "/" + layer + ZxyMarker + tail
    requires SimpleUrl(scheme, netloc, "/" + layer + ZxyMarker + tail)
    requires '{' !in layer
    ensures GetLayer(cfg) == layer
  {
    var path := "/" + layer + ZxyMarker + tail;
    AppendFour(scheme + "://" + netloc, "/", layer, ZxyMarker, tail);
    ParseSimpleUrl(scheme, netloc, path, "");
    assert DataPath(cfg) == path;
    LayerPathBeforeMarker(layer, tail);
  }

  /** The path `/<layer>/{z}/{x}/{y}...` is cut right after the layer when the layer has no `{`. */
  lemma LayerPathBeforeMarker(layer: string, tail: string)
    requires '{' !in layer
    ensures Before("/" + layer + ZxyMarker + tail, ZxyMarker) == "/" + layer
    ensures LayerOfPath("/" + layer + ZxyMarker + tail) == layer
  {
    var pre := "/" + layer;
    var path := pre + ZxyMarker + tail;
    forall j | 0 <= j < |pre| ensures !OccursAt(path, ZxyMarker, j) {
      if j + 1 < |pre| {
        assert path[j + 1] == layer[j];
      } else {
        assert path[j + 1] == '/';
      }
    }
    FirstOccurrence(pre, ZxyMarker, tail);
  }

  /** No element occurs twice. */
  predicate NoDuplicates<T(==)>(s: seq<T>)
  {
    forall i, j :: 0 <= i < j < |s| ==> s[i] != s[j]
  }

  /** Filtering a list without duplicates gives a list without duplicates. */
  lemma {:induction false} FilterKeepsDistinct(entries: seq<TileMatrixSetLink>, schemes: seq<string>)
    requires NoDuplicates(entries)
    ensures NoDuplicates(FilterBySchemes(entries, schemes))
  {
    if |entries| > 0 {
      FilterKeepsDistinct(entries[1..], schemes);
      var rest := FilterBySchemes(entries[1..], schemes);
      if entries[0].tileMatrixSet in schemes {
        assert entries[0] !in entries[1..];
        assert entries[0] !in rest;
        ConsDistinct(entries[0], rest);
      }
    }
  }

  /** An element not in a list without duplicates can be put in front of it. */
  lemma ConsDistinct<T>(x: T, rest: seq<T>)
    requires x !in rest && NoDuplicates(rest)
    ensures NoDuplicates([x] + rest)
  {
    var r := [x] + rest;
    forall i, j | 0 <= i < j < |r| ensures r[i] != r[j] {
      assert r[j] == rest[j - 1];
      if i > 0 { assert r[i] == rest[i - 1]; }
    }
  }

  /**
   * The tiling schemes of a provider: WorldCRS84Quad when it is configured,
   * then WebMercatorQuad when it is configured, each at most once.
   */
  lemma TilingSchemesExact(cfg: ProviderConfig)
    ensures GetTilingSchemes(cfg)
         == (if "WorldCRS84Quad" in cfg.tilingSchemes then [WorldCrs84Quad] else [])
          + (if "WebMercatorQuad" in cfg.tilingSchemes then [WebMercatorQuad] else [])
    ensures NoDuplicates(GetTilingSchemes(cfg))
  {
    var schemes := cfg.tilingSchemes;
    assert Catalog[1..] == [WebMercatorQuad] && Catalog[1..][1..] == [];
    assert FilterBySchemes(Catalog[1..][1..], schemes) == [];
    assert FilterBySchemes(Catalog[1..], schemes)
        == (if "WebMercatorQuad" in schemes then [WebMercatorQuad] else []) + [];
    FilterKeepsDistinct(Catalog, schemes);
  }

  /**
   * The service description for an explicit base `scheme://netloc` and an
   * explicit service path `<dir>{tileMatrix}/{tileRow}/{tileCol}<suffix>`:
   * the tile link is the service path on that origin, and the metadata link
   * is `metadata` in the directory `<dir>`, with `?f=json`.
   */
  lemma ServiceLinksForPath(cfg: ProviderConfig, scheme: string, netloc: string, dir: string, suffix: string,
                            dirpath: Option<string>, tileType: Option<string>)
    requires SimpleUrl(scheme, netloc, "") && scheme in UsesRelative && '{' !in netloc
    requires |dir| >= 1 && dir[0] == '/' && dir[|dir| - 1] == '/'
    requires PlainPath(dir) && NoDoubled(dir, '/') && NoDotSegments(dir) && NoStrippedChars(dir)
    requires PlainPath(suffix) && NoStrippedChars(suffix) && NoDotSegments(dir + TileMatrixMarker + suffix)
    requires forall j :: 0 <= j < |dir| ==> !OccursAt(dir + TileMatrixMarker, TileMatrixMarker, j)
    ensures var r := GetTilesService(cfg, Some(scheme + "://" + netloc),
                                      Some(dir + TileMatrixMarker + suffix), dirpath, tileType);
      && r.links[0].href == scheme + "://" + netloc + dir + TileMatrixMarker + suffix
      && r.links[1].href == scheme + "://" + netloc + dir + "metadata?f=json"
  {
    var origin := scheme + "://" + netloc;
    var sp := dir + TileMatrixMarker + suffix;
    var serviceUrl := origin + dir + TileMatrixMarker + suffix;
    var r := GetTilesService(cfg, Some(origin), Some(sp), dirpath, tileType);
    ItemHrefForPath(scheme, netloc, dir, suffix);
    assert r.links[0].href == serviceUrl;
    OriginHasNoBrace(scheme, netloc);
    CutBeforeTileMatrix(origin, dir, suffix);
    MetadataInDirectory(scheme, netloc, dir);
    var meta := origin + dir + "metadata";
    assert MetadataUrl(serviceUrl) == meta;
    assert r.links[1].href == meta + "?f=json";
    Regroup(origin + dir, "metadata", "?f=json");
    MetadataQueryLiteral();
  }

  lemma OriginHasNoBrace(scheme: string, netloc: string)
    requires IsScheme(scheme) && '{' !in netloc
    ensures '{' !in scheme + "://" + netloc
  {
    var origin := scheme + "://" + netloc;
    forall k | 0 <= k < |origin| ensures origin[k] != '{' {
      if k < |scheme| { assert IsSchemeChar(scheme[k]); }
    }
  }

  /** The tile link of `ServiceLinksForPath`: an absolute service path replaces the base URL's path. */
  lemma ItemHrefForPath(scheme: string, netloc: string, dir: string, suffix: string)
    requires SimpleUrl(scheme, netloc, "") && scheme in UsesRelative
    requires |dir| >= 1 && dir[0] == '/'
    requires PlainPath(dir) && NoDoubled(dir, '/') && NoStrippedChars(dir)
    requires PlainPath(suffix) && NoStrippedChars(suffix) && NoDotSegments(dir + TileMatrixMarker + suffix)
    ensures UrlJoin(scheme + "://" + netloc, dir + TileMatrixMarker + suffix)
         == scheme + "://" + netloc + dir + TileMatrixMarker + suffix
  {
    var origin := scheme + "://" + netloc;
    var sp := dir + TileMatrixMarker + suffix;
    Regroup(origin, dir + TileMatrixMarker, suffix);
    Regroup(origin, dir, TileMatrixMarker);
    ServicePathAbsolute(dir, suffix);
    TileMatrixMarkerNoStripped();
    NoStrippedJoined(dir, TileMatrixMarker);
    NoStrippedJoined(dir + TileMatrixMarker, suffix);
    assert origin + "" == origin;
    JoinAbsolutePath(scheme, netloc, "", sp);
  }

  /** A service path `<dir>{tileMatrix}/{tileRow}/{tileCol}<suffix>` with `dir` starting with one '/' is an absolute path. */
  lemma ServicePathAbsolute(dir: string, suffix: string)
    requires |dir| >= 1 && dir[0] == '/'
    requires PlainPath(dir) && NoDoubled(dir, '/') && PlainPath(suffix)
    ensures var sp := dir + TileMatrixMarker + suffix;
      && |sp| >= 2 && sp[0] == '/' && sp[1] != '/' && PlainPath(sp)
  {
    TileMatrixMarkerPlain();
    AbsoluteAround(dir, TileMatrixMarker, suffix);
  }

  lemma TileMatrixMarkerNoStripped()
    ensures NoStrippedChars(TileMatrixMarker)
  {
    PlaceholdersNoStripped();
    NoStrippedJoined(MatrixSegment, "/");
    NoStrippedJoined(MatrixSegment + "/", RowSegment);
    NoStrippedJoined(MatrixSegment + "/" + RowSegment, "/");
    NoStrippedJoined(MatrixSegment + "/" + RowSegment + "/", ColSegment);
  }

  lemma PlaceholdersNoStripped()
    ensures NoStrippedChars(MatrixSegment) && NoStrippedChars(RowSegment) && NoStrippedChars(ColSegment)
  {
  }

  lemma TileMatrixMarkerPlain()
    ensures PlainPath(TileMatrixMarker) && TileMatrixMarker[0] == '{'
  {
    SegmentLiterals();
    PlainJoined(MatrixSegment, "/");
    PlainJoined(MatrixSegment + "/", RowSegment);
    PlainJoined(MatrixSegment + "/" + RowSegment, "/");
    PlainJoined(MatrixSegment + "/" + RowSegment + "/", ColSegment);
  }

  /** What the proofs need to know of the placeholder texts. */
  lemma SegmentLiterals()
    ensures PlainPath(MatrixSegment) && PlainPath(RowSegment) && PlainPath(ColSegment) && PlainPath(SetIdSegment)
    ensures |MatrixSegment| == 12 && MatrixSegment[0] == '{' && MatrixSegment[11] == '}'
    ensures |SetIdSegment| == 17 && SetIdSegment[0] == '{' && SetIdSegment[11] == 'S' && '{' !in SetIdSegment[1..]
    ensures '/' !in MatrixSegment && '/' !in RowSegment && '/' !in ColSegment && '/' !in SetIdSegment
    ensures MatrixSegment !in {"", ".", ".."} && RowSegment !in {"", ".", ".."}
    ensures ColSegment[0] == '{' && SetIdSegment !in {"", ".", ".."}
  {
    MatrixLiteral();
    RowLiteral();
    ColLiteral();
    SetIdLiteral();
  }

  lemma MatrixLiteral()
    ensures PlainPath(MatrixSegment) && '/' !in MatrixSegment && MatrixSegment !in {"", ".", ".."}
    ensures |MatrixSegment| == 12 && MatrixSegment[0] == '{' && MatrixSegment[11] == '}'
  {
  }

  lemma RowLiteral()
    ensures PlainPath(RowSegment) && '/' !in RowSegment && RowSegment !in {"", ".", ".."}
  {
  }

  lemma ColLiteral()
    ensures PlainPath(ColSegment) && '/' !in ColSegment && ColSegment[0] == '{'
  {
  }

  lemma SetIdLiteral()
    ensures PlainPath(SetIdSegment) && '/' !in SetIdSegment && SetIdSegment !in {"", ".", ".."}
    ensures |SetIdSegment| == 17 && SetIdSegment[0] == '{' && SetIdSegment[11] == 'S' && '{' !in SetIdSegment[1..]
  {
    SetIdPlain();
    SetIdBraces();
  }

  lemma SetIdPlain()
    ensures PlainPath(SetIdSegment) && '/' !in SetIdSegment && SetIdSegment !in {"", ".", ".."}
  {
  }

  lemma SetIdBraces()
    ensures |SetIdSegment| == 17 && SetIdSegment[0] == '{' && SetIdSegment[11] == 'S' && '{' !in SetIdSegment[1..]
  {
  }

  lemma PlainJoined(a: string, b: string)
    requires PlainPath(a) && PlainPath(b)
    ensures PlainPath(a + b)
  {
  }

  lemma AbsoluteAround(dir: string, m: string, suffix: string)
    requires |dir| >= 1 && dir[0] == '/' && |m| >= 1 && m[0] != '/'
    requires PlainPath(dir) && NoDoubled(dir, '/') && PlainPath(m) && PlainPath(suffix)
    ensures var sp := dir + m + suffix;
      && |sp| >= 2 && sp[0] == '/' && sp[1] != '/' && PlainPath(sp)
  {
    var sp := dir + m + suffix;
    assert sp[0] == '/';
    if |dir| >= 2 { assert sp[1] == dir[1]; } else { assert sp[1] == m[0]; }
  }

  /** The metadata link of `ServiceLinksForPath`: `metadata` resolved in a directory ending in '/'. */
  lemma MetadataInDirectory(scheme: string, netloc: string, dir: string)
    requires SimpleUrl(scheme, netloc, dir) && scheme in UsesRelative
    requires |dir| >= 1 && dir[|dir| - 1] == '/'
    requires NoDoubled(dir, '/') && NoDotSegments(dir)
    ensures UrlJoin(scheme + "://" + netloc + dir, "metadata") == scheme + "://" + netloc + dir + "metadata"
  {
    var origin := scheme + "://" + netloc;
    var merged := RfcMerge(dir, "metadata");
    assert NoStrippedChars("metadata");
    JoinRelativeSegment(scheme, netloc, dir, "metadata");
    assert merged == dir + "metadata" by {
      assert LastIndex(dir, '/') == Some(|dir| - 1);
      assert dir[..|dir|] == dir;
    }
    Regroup(origin, dir, "metadata");
  }

  lemma MetadataQueryLiteral()
    ensures "metadata" + "?f=json" == "metadata?f=json"
  {
  }

  /** The service URL is cut right before its tile-matrix marker when nothing before it starts one. */
  lemma CutBeforeTileMatrix(origin: string, dir: string, suffix: string)
    requires '{' !in origin
    requires forall j :: 0 <= j < |dir| ==> !OccursAt(dir + TileMatrixMarker, TileMatrixMarker, j)
    ensures Before(origin + dir + TileMatrixMarker + suffix, TileMatrixMarker) == origin + dir
  {
    var pre := origin + dir;
    var s := pre + TileMatrixMarker + suffix;
    forall j | 0 <= j < |pre| ensures !OccursAt(s, TileMatrixMarker, j) {
      if j < |origin| {
        assert s[j] == origin[j] && s[j] != '{';
        assert s[j..j + |TileMatrixMarker|][0] == s[j];
      } else {
        var k := j - |origin|;
        assert !OccursAt(dir + TileMatrixMarker, TileMatrixMarker, k);
        assert s[j..j + |TileMatrixMarker|] == (dir + TileMatrixMarker)[k..k + |TileMatrixMarker|];
      }
    }
    FirstOccurrence(pre, TileMatrixMarker, suffix);
  }

  /** The directory of the default service path, up to the tile matrix: `/<layer>/tiles/{tileMatrixSetId}/`. */
  function DefaultDirectory(layer: string): string
  {
    "/" + layer + SetIdDirectory
  }

  /** The default service path is that directory, the tile-matrix marker, then the tile type. */
  lemma DefaultPathShape(layer: string, tileType: string)
    ensures "/" + layer + TilesTemplate + tileType == DefaultDirectory(layer) + TileMatrixMarker + tileType
  {
    Regroup("/" + layer, SetIdDirectory, TileMatrixMarker);
  }

  /** The default directory for a one-segment layer is a plain path without dot segments. */
  lemma DefaultDirectoryPlain(layer: string, tileType: string)
    requires layer != "" && layer != "." && layer != ".." && '/' !in layer && PlainPath(layer)
    requires '/' !in tileType && PlainPath(tileType)
    ensures PlainPath(DefaultDirectory(layer)) && NoDoubled(DefaultDirectory(layer), '/')
    ensures NoDotSegments(DefaultDirectory(layer))
    ensures NoDotSegments(DefaultDirectory(layer) + TileMatrixMarker + tileType)
  {
    var d := "" + "/" + layer + "/" + "tiles" + "/" + SetIdSegment;
    LayerDirectoryNoDots(layer);
    NoDotsInSegment("");
    NoDotsJoined(d, "");
    DefaultDirectorySegments(layer);
    TileSegmentsNoDots(d, tileType);
    DefaultDirectoryNotDoubled(layer);
  }

  lemma LayerDirectoryNoDots(layer: string)
    requires layer != "" && layer != "." && layer != ".." && '/' !in layer
    ensures NoDotSegments("" + "/" + layer + "/" + "tiles" + "/" + SetIdSegment)
  {
    SegmentLiterals();
    NoDotsInSegment("");
    NoDotsInSegment(layer);
    NoDotsInSegment("tiles");
    NoDotsInSegment(SetIdSegment);
    NoDotsJoined("", layer);
    NoDotsJoined("" + "/" + layer, "tiles");
    NoDotsJoined("" + "/" + layer + "/" + "tiles", SetIdSegment);
  }

  lemma DefaultDirectorySegments(layer: string)
    ensures DefaultDirectory(layer) == "" + "/" + layer + "/" + "tiles" + "/" + SetIdSegment + "/" + ""
  {
    AppendFour("/" + layer, "/", "tiles", "/", SetIdSegment);
    Regroup("/" + layer, "/" + "tiles" + "/" + SetIdSegment, "/");
    assert "" + "/" == "/";
  }

  lemma TileSegmentsNoDots(d: string, tileType: string)
    requires NoDotSegments(d) && '/' !in tileType
    ensures NoDotSegments(d + "/" + "" + TileMatrixMarker + tileType)
  {
    SegmentLiterals();
    NoDotsInSegment(MatrixSegment);
    NoDotsInSegment(RowSegment);
    ColumnNoSlash(tileType);
    NoDotsInSegment(ColSegment + tileType);
    NoDotsJoined(d, MatrixSegment);
    NoDotsJoined(d + "/" + MatrixSegment, RowSegment);
    NoDotsJoined(d + "/" + MatrixSegment + "/" + RowSegment, ColSegment + tileType);
    MarkerAfterDirectory(d, tileType);
  }

  lemma ColumnNoSlash(tileType: string)
    requires '/' !in tileType
    ensures '/' !in ColSegment + tileType && ColSegment + tileType !in {"", ".", ".."}
  {
    SegmentLiterals();
    assert (ColSegment + tileType)[0] == '{';
  }

  lemma MarkerAfterDirectory(d: string, tileType: string)
    ensures d + "/" + "" + TileMatrixMarker + tileType
         == d + "/" + MatrixSegment + "/" + RowSegment + "/" + (ColSegment + tileType)
  {
    assert "/" + "" == "/";
    AppendFour(d + "/", MatrixSegment, "/", RowSegment, "/");
    Regroup(d + "/", MatrixSegment + "/" + RowSegment + "/", ColSegment);
    Regroup(d + "/" + MatrixSegment + "/" + RowSegment + "/", ColSegment, tileType);
  }

  lemma DefaultDirectoryNotDoubled(layer: string)
    requires layer != "" && '/' !in layer && PlainPath(layer)
    ensures PlainPath(DefaultDirectory(layer)) && NoDoubled(DefaultDirectory(layer), '/')
  {
    SetIdDirectoryLiteral();
    PlainJoined("/", layer);
    PlainJoined("/" + layer, SetIdDirectory);
    assert NoDoubled(layer, '/');
    NoDoubledJoined("/", layer, '/');
    NoDoubledJoined("/" + layer, SetIdDirectory, '/');
  }

  lemma SetIdDirectoryLiteral()
    ensures PlainPath(SetIdDirectory) && NoDoubled(SetIdDirectory, '/')
  {
    SegmentLiterals();
    PlainJoined("/" + "tiles" + "/", SetIdSegment);
    PlainJoined("/" + "tiles" + "/" + SetIdSegment, "/");
    assert NoDoubled(SetIdSegment, '/');
    NoDoubledJoined("/" + "tiles" + "/", SetIdSegment, '/');
    NoDoubledJoined("/" + "tiles" + "/" + SetIdSegment, "/", '/');
  }

  /** Two texts without doubled `c` that do not meet in `c` on both sides. */
  lemma NoDoubledJoined(x: string, y: string, c: char)
    requires NoDoubled(x, c) && NoDoubled(y, c)
    requires |x| > 0 && |y| > 0 ==> !(x[|x| - 1] == c && y[0] == c)
    ensures NoDoubled(x + y, c)
  {
    var s := x + y;
    forall k | 0 <= k < |s| - 1 ensures !(s[k] == c && s[k + 1] == c) {
      if k + 1 < |x| {
        assert s[k] == x[k] && s[k + 1] == x[k + 1];
      } else if k + 1 == |x| {
        assert s[k] == x[k] && s[k + 1] == y[0];
      } else {
        assert s[k] == y[k - |x|] && s[k + 1] == y[k + 1 - |x|];
      }
    }
  }

  /** No tile-matrix marker starts inside the default directory. */
  lemma DefaultDirectoryHasNoMarker(layer: string)
    requires '{' !in layer
    ensures forall j :: 0 <= j < |DefaultDirectory(layer)| ==>
      !OccursAt(DefaultDirectory(layer) + TileMatrixMarker, TileMatrixMarker, j)
  {
    var a := "/" + layer + "/" + "tiles" + "/";
    var b := SetIdSegment + "/";
    DirectoryBeforeSetId(layer);
    assert '{' !in a by {
      forall k | 0 <= k < |a| ensures a[k] != '{' {
        if 1 <= k <= |layer| { assert a[k] == layer[k - 1]; }
      }
    }
    SegmentLiterals();
    assert b[1..] == SetIdSegment[1..] + "/";
    assert TileMatrixMarker[11] == MatrixSegment[11];
    MarkerNotInside(a, b, TileMatrixMarker);
  }

  lemma DirectoryBeforeSetId(layer: string)
    ensures DefaultDirectory(layer) == "/" + layer + "/" + "tiles" + "/" + (SetIdSegment + "/")
  {
    AppendFour("/" + layer, "/", "tiles", "/", SetIdSegment);
    Regroup("/" + layer, "/" + "tiles" + "/" + SetIdSegment, "/");
    AppendThree("/" + layer, "/", "tiles", "/");
    Regroup("/" + layer + "/" + "tiles" + "/", SetIdSegment, "/");
  }

  /**
   * In `a + b + m`, `m` starts nowhere inside `a + b` when only `b` starts
   * with `m`'s first character and the two differ at index 11.
   */
  lemma MarkerNotInside(a: string, b: string, m: string)
    requires '{' !in a && |b| >= 12 && b[0] == '{' && '{' !in b[1..]
    requires |m| >= 12 && m[0] == '{' && m[11] != b[11]
    ensures forall j :: 0 <= j < |a + b| ==> !OccursAt(a + b + m, m, j)
  {
    var s := a + b + m;
    forall j | 0 <= j < |a| + |b| ensures !OccursAt(s, m, j) {
      if j < |a| {
        DiffersAt(s, m, j, 0);
      } else if j == |a| {
        DiffersAt(s, m, j, 11);
      } else {
        assert s[j] == b[1..][j - |a| - 1];
        DiffersAt(s, m, j, 0);
      }
    }
  }

  /** A pattern does not occur where one of its characters differs. */
  lemma DiffersAt(s: string, pat: string, j: nat, k: nat)
    requires k < |pat| && j + k < |s| && s[j + k] != pat[k]
    ensures !OccursAt(s, pat, j)
  {
    if j + |pat| <= |s| {
      assert s[j..j + |pat|][k] == s[j + k];
    }
  }

  /**
   * With neither a base URL nor a service path given, for a data URL
   * `scheme://netloc/<layer>/{z}/{x}/{y}...`, the tile link is
   * `scheme://netloc/<layer>/tiles/{tileMatrixSetId}/{tileMatrix}/{tileRow}/{tileCol}<tile type>`
   * and the metadata link is `metadata?f=json` in `/<layer>/tiles/{tileMatrixSetId}/`.
   */
  lemma DefaultServiceLinks(cfg: ProviderConfig, scheme: string, netloc: string, layer: string, tail: string,
                            dirpath: Option<string>, tileType: Option<string>)
    requires cfg.data == scheme + "://" + netloc + "/" + layer + ZxyMarker + tail
    requires SimpleUrl(scheme, netloc, "/" + layer + ZxyMarker + tail) && scheme in UsesRelative && '{' !in netloc
    requires layer != "" && layer != "." && layer != ".." && '/' !in layer && '{' !in layer && PlainPath(layer)
    requires '/' !in EffectiveTileType(cfg, tileType) && PlainPath(EffectiveTileType(cfg, tileType))
    requires NoStrippedChars(EffectiveTileType(cfg, tileType))
    ensures var r := GetTilesService(cfg, None, None, dirpath, tileType);
      && r.links[0].href == scheme + "://" + netloc + "/" + layer + TilesTemplate + EffectiveTileType(cfg, tileType)
      && r.links[1].href == scheme + "://" + netloc + DefaultDirectory(layer) + "metadata?f=json"
  {
    var origin := scheme + "://" + netloc;
    var tt := EffectiveTileType(cfg, tileType);
    var dir := DefaultDirectory(layer);
    DefaultPathOfTemplate(cfg, scheme, netloc, layer, tail, tt);
    assert |origin| >= 3 && |dir + TileMatrixMarker + tt| >= |TileMatrixMarker|;
    DefaultsAsExplicit(cfg, dirpath, tileType);
    DefaultDirectoryPlain(layer, tt);
    DefaultDirectoryHasNoMarker(layer);
    DefaultDirectoryNoStripped(layer, tail);
    assert SimpleUrl(scheme, netloc, "");
    ServiceLinksForPath(cfg, scheme, netloc, dir, tt, dirpath, tileType);
    var r := GetTilesService(cfg, None, None, dirpath, tileType);
    AppendThree(origin, dir, TileMatrixMarker, tt);
    AppendFour(origin, "/", layer, TilesTemplate, tt);
    DefaultPathShape(layer, tt);
    assert r.links[0].href == origin + "/" + layer + TilesTemplate + tt;
  }

  /** A layer taken from a data path free of tab, CR and LF gives a default directory free of them too. */
  lemma DefaultDirectoryNoStripped(layer: string, tail: string)
    requires NoStrippedChars("/" + layer + ZxyMarker + tail)
    ensures NoStrippedChars(DefaultDirectory(layer))
  {
    var path := "/" + layer + ZxyMarker + tail;
    forall k | 0 <= k < |layer| ensures layer[k] == path[1 + k] { }
    SetIdDirectoryNoStripped();
    Regroup("/", layer, SetIdDirectory);
    var d := DefaultDirectory(layer);
    forall k | 0 <= k < |d| ensures d[k] != '\t' && d[k] != '\r' && d[k] != '\n' {
      if k == 0 {
      } else if k <= |layer| {
        assert d[k] == layer[k - 1];
      } else {
        assert d[k] == SetIdDirectory[k - 1 - |layer|];
      }
    }
  }

  lemma SetIdDirectoryNoStripped()
    ensures NoStrippedChars(SetIdDirectory)
  {
    SetIdSegmentNoStripped();
    assert NoStrippedChars("tiles");
  }

  lemma SetIdSegmentNoStripped()
    ensures NoStrippedChars(SetIdSegment)
  {
  }

  /** Without a base URL or service path, `get_tiles_service` uses the data URL's origin and the default path. */
  lemma DefaultsAsExplicit(cfg: ProviderConfig, dirpath: Option<string>, tileType: Option<string>)
    requires DataOrigin(cfg) != "" && DefaultServicePath(cfg, EffectiveTileType(cfg, tileType)) != ""
    ensures GetTilesService(cfg, None, None, dirpath, tileType)
         == GetTilesService(cfg, Some(DataOrigin(cfg)),
                            Some(DefaultServicePath(cfg, EffectiveTileType(cfg, tileType))), dirpath, tileType)
  {
  }

  /** For a data URL `scheme://netloc/<layer>/{z}/{x}/{y}...`, the origin and the default service path. */
  lemma DefaultPathOfTemplate(cfg: ProviderConfig, scheme: string, netloc: string, layer: string, tail: string,
                              tileType: string)
    requires cfg.data == scheme + "://" + netloc + "/" + layer + ZxyMarker + tail
    requires SimpleUrl(scheme, netloc, "/" + layer + ZxyMarker + tail)
    requires '{' !in layer
    ensures DataOrigin(cfg) == scheme + "://" + netloc
    ensures DefaultServicePath(cfg, tileType) == DefaultDirectory(layer) + TileMatrixMarker + tileType
  {
    var path := "/" + layer + ZxyMarker + tail;
    AppendFour(scheme + "://" + netloc, "/", layer, ZxyMarker, tail);
    ParseSimpleUrl(scheme, netloc, path, "");
    assert DataPath(cfg) == path;
    LayerPathBeforeMarker(layer, tail);
    DefaultPathShape(layer, tileType);
  }

  lemma AppendThree(o: string, a: string, b: string, c: string)
    ensures o + a + b + c == o + (a + b + c)
  {
    Regroup(o, a, b);
    Regroup(o, a + b, c);
  }

  lemma AppendFour(o: string, a: string, b: string, c: string, d: string)
    ensures o + a + b + c + d == o + (a + b + c + d)
  {
    AppendThree(o, a, b, c);
    Regroup(o, a + b + c, d);
  }

  /**
   * The tile request URL is the data URL's origin, then `/` and exactly four
   * path segments: the layer, `z`, `y`, and `x` with the format as extension.
   */
  lemma TileRequestSegments(cfg: ProviderConfig, layer: Option<string>, z: Option<int>, y: Option<int>,
                            x: Option<int>, format: Option<string>)
    requires '/' !in OptText(TileFormat(cfg, format))
    ensures var url := TileRequestUrl(cfg, layer, z, y, x, format);
      && |url| > |DataOrigin(cfg)|
      && url[..|DataOrigin(cfg)| + 1] == DataOrigin(cfg) + "/"
      && Split(url[|DataOrigin(cfg)| + 1..], '/')
         == Split(OptText(layer), '/')
            + [OptIntText(z), OptIntText(y), OptIntText(x) + "." + OptText(TileFormat(cfg, format))]
  {
    var o := DataOrigin(cfg);
    var a, zt, yt, xt, f := OptText(layer), OptIntText(z), OptIntText(y), OptIntText(x), OptText(TileFormat(cfg, format));
    var last := xt + "." + f;
    var rest := a + "/" + zt + "/" + yt + "/" + last;
    TileUrlRegrouped(o, a, zt, yt, xt, f);
    var url := TileRequestUrl(cfg, layer, z, y, x, format);
    assert url == o + "/" + rest;
    assert url[..|o| + 1] == o + "/" && url[|o| + 1..] == rest;
    ExtensionNoSlash(xt, f);
    SplitFourSegments(a, zt, yt, last);
  }

  /** With a one-segment layer, the request path has exactly four segments: layer, `z`, `y`, `x.<f>`. */
  lemma RequestFourSegments(origin: string, lyr: string, z: string, y: string, x: string, f: string)
    requires '/' !in lyr && '/' !in z && '/' !in y && '/' !in x && '/' !in f
    ensures var u := RequestUrl(origin, lyr, z, y, x, f);
      |u| > |origin| && Split(u[|origin| + 1..], '/') == [lyr, z, y, x + "." + f]
  {
    var u := RequestUrl(origin, lyr, z, y, x, f);
    var rest := lyr + "/" + z + "/" + y + "/" + (x + "." + f);
    TileUrlRegrouped(origin, lyr, z, y, x, f);
    assert u == origin + "/" + rest;
    assert u[|origin| + 1..] == rest;
    ExtensionNoSlash(x, f);
    SplitFourSegments(lyr, z, y, x + "." + f);
    SplitNoSeparator(lyr, '/');
  }

  lemma ExtensionNoSlash(xt: string, f: string)
    requires '/' !in xt && '/' !in f
    ensures '/' !in xt + "." + f
  {
    var last := xt + "." + f;
    forall k | 0 <= k < |last| ensures last[k] != '/' {
      if k < |xt| { assert last[k] == xt[k]; }
      else if k > |xt| { assert last[k] == f[k - |xt| - 1]; }
    }
  }

  /** The segments of `a/b/c/d` when only `a` may hold further slashes. */
  lemma SplitFourSegments(a: string, b: string, c: string, d: string)
    requires '/' !in b && '/' !in c && '/' !in d
    ensures Split(a + "/" + b + "/" + c + "/" + d, '/') == Split(a, '/') + [b, c, d]
  {
    SplitAppend(a + "/" + b + "/" + c, d, '/');
    SplitAppend(a + "/" + b, c, '/');
    SplitAppend(a, b, '/');
    SplitNoSeparator(b, '/');
    SplitNoSeparator(c, '/');
    SplitNoSeparator(d, '/');
  }

  lemma TileUrlRegrouped(o: string, a: string, zt: string, yt: string, xt: string, f: string)
    ensures o + "/" + a + "/" + zt + "/" + yt + "/" + xt + "." + f
         == o + "/" + (a + "/" + zt + "/" + yt + "/" + (xt + "." + f))
  {
  }

  /**
   * On every provider that construction builds, `get_tiling_schemes` as
   * written raises `AttributeError`, since construction stores the schemes
   * as `tiling_schemes` and never creates `schemes`; reading the stored
   * schemes instead gives the corrected result.
   */
  lemma SchemesAttributeMismatch(def: ProviderDef)
    requires ReadProviderDef(def).Success?
    ensures TilingSchemesAsWritten(None) == Failure(AttributeError("schemes"))
    ensures TilingSchemesAsWritten(Some(def.schemes.value)) == Success(GetTilingSchemes(ReadProviderDef(def).value))
  {
  }
}
