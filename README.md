# pygeoapi MVT tile provider, modelled in Dafny

This project models pygeoapi's Mapbox vector tile provider. It covers the
`MVTProvider` operations in `pygeoapi/provider/mvt.py` and the
`BaseTileProvider` base class in `pygeoapi/provider/tile.py`.

**Tile (`tile.dfy`)** covers construction and the base class:
- Construction reads `name`, `data`, `format.name`, `mimetype` and `schemes` from the provider definition, in that order.
- The first missing key raises `KeyError`. Nothing else is checked.
- The values are copied onto a `BaseTileProvider` object, and `fields` starts empty.
- Each base operation raises `NotImplementedError`.
- `ProviderTilesetIdNotFoundError` refines `ProviderTileQueryError`, which refines `ProviderGenericError`.

**Mvt (`mvt.dfy`)** covers the provider's operations, which read the stored configuration and build strings:
- the layer name (`get_layer`);
- the tiling-scheme filter over the fixed two-entry catalog (`get_tiling_schemes`);
- the two-link service description (`get_tiles_service`), including its defaults and URL resolution;
- the format substitution and request URL of `get_tiles`;
- the constant TileJSON document (`get_metadata`).

**Urls (`urls.dfy`)** holds the parts of CPython 3.11's `urllib.parse` these operations depend on: `urlsplit`, `urlparse`, `urlunparse` and `urljoin`. It proves `urljoin` against section 5.2 of RFC 3986 for the two kinds of reference the provider resolves:
- an absolute path (section 5.2.2);
- one relative segment, merged as section 5.2.3 describes.

**Strings (`strings.dfy`)** holds `str.split`, `str.join` and find-first-occurrence. **Wrappers (`wrappers.dfy`)** holds `Option` and `Result`.

## Model

| member | source | states |
|---|---|---|
| Tile.ReadProviderDef | pygeoapi/provider/tile.py:49-53 | Construction succeeds exactly when `name`, `data`, `format`, `format.name`, `mimetype` and `schemes` are all present. On success each value is copied unchanged. On failure the error is `KeyError` of the first missing key, in lookup order. |
| Tile.BaseTileProvider.constructor | pygeoapi/provider/tile.py:49-54 | Each field holds the value read for it, and `fields` is the empty map. |
| Tile.BaseTileProvider.New | pygeoapi/provider/tile.py:40-54 | Returns a fresh provider holding the definition's values exactly when every key is present; otherwise returns the `KeyError` of the lookup. |
| Tile.BaseTileProvider.GetFields | pygeoapi/provider/tile.py:56-63 | Always fails with `NotImplementedError`. |
| Tile.BaseTileProvider.GetTilingSchemes | pygeoapi/provider/tile.py:65-72 | Always fails with `NotImplementedError`. |
| Tile.BaseTileProvider.GetTileServices | pygeoapi/provider/tile.py:74-85 | Fails with `NotImplementedError`, whatever the arguments. |
| Tile.BaseTileProvider.GetTiles | pygeoapi/provider/tile.py:87-99 | Fails with `NotImplementedError`, whatever the arguments. |
| Tile.BaseTileProvider.GetMetadataServices | pygeoapi/provider/tile.py:101-111 | Fails with `NotImplementedError`, whatever the arguments. |
| Tile.TilesetNotFoundRefinesTileQuery | pygeoapi/provider/tile.py:114-121 | A tileset-not-found error is a tile-query error and a generic provider error. A tile-query error is not a tileset-not-found error, and the generic error is not a tile-query error. |
| Tile.AllDeriveFromGeneric | pygeoapi/provider/tile.py:114-121 | Every provider error class is a subclass of `ProviderGenericError`. |
| Tile.SubclassTransitive | pygeoapi/provider/tile.py:114-121 | The subclass relation of the error hierarchy is transitive. |
| Tile.ConstructionIgnoresData | pygeoapi/provider/tile.py:49-54 | Any `data` value is accepted, with or without a `/{z}/{x}/{y}` marker, and is stored exactly as given. |
| Mvt.LayerOfPath | pygeoapi/provider/mvt.py:62-66 | The layer is the path after its first character, up to the first `/{z}/{x}/{y}`; if there is no marker, it runs to the end of the path. It is empty for an empty path and for a path that starts with the marker. |
| Mvt.GetLayer | pygeoapi/provider/mvt.py:62-66 | The layer is a piece of the data URL's path starting after its first character, and is empty when the path is. Which piece is fixed by `Mvt.LayerOfPath`; for a plain data URL `scheme://netloc/<layer>/{z}/{x}/{y}...` with no `{` in the layer, it is exactly `<layer>` (`Mvt.LayerOfTemplate`). |
| Mvt.LayerPathBeforeMarker | pygeoapi/provider/mvt.py:66 | For a path `/<layer>/{z}/{x}/{y}...` where the layer has no `{`, the cut falls right after the layer and the layer name is returned. |
| Mvt.LayerOfTemplate | pygeoapi/provider/mvt.py:62-66 | For data `scheme://netloc/<layer>/{z}/{x}/{y}...`, `get_layer` returns exactly `<layer>`. This holds when the layer has no `{`, the scheme is lower-case, the netloc has no `/`, `?` or `#`, and the path has no `?`, `#`, `;`, tab, CR or LF. |
| Mvt.FilterBySchemes | pygeoapi/provider/mvt.py:77-79 | The result is an order-preserving subsequence of the entries. An entry is in it exactly when it is among the entries and its tile matrix set is one of the schemes. Each kept entry occurs as often as in the input, and every other entry not at all. |
| Mvt.GetTilingSchemes | pygeoapi/provider/mvt.py:68-81 | Returns at most two entries, drawn from the catalog in catalog order. An entry appears exactly when its tile matrix set is in the stored tiling schemes. |
| Mvt.FilterKeepsDistinct | pygeoapi/provider/mvt.py:77-81 | If the entries are distinct, so is the filtered list. |
| Mvt.TilingSchemesExact | pygeoapi/provider/mvt.py:68-81 | The result is exactly WorldCRS84Quad if named, then WebMercatorQuad if named, with no duplicates. |
| Mvt.TilingSchemesAsWritten | pygeoapi/provider/mvt.py:77-79 | Reading the `schemes` attribute fails with `AttributeError("schemes")` exactly when the attribute is absent; otherwise it returns the catalog filtered by it. |
| Mvt.SchemesAttributeMismatch | pygeoapi/provider/mvt.py:79 | On every constructed provider the operation as written fails. Reading the stored tiling schemes gives the corrected result. |
| Mvt.EffectiveBaseUrl | pygeoapi/provider/mvt.py:96-97 | An empty or missing base URL becomes `scheme://netloc` of the data URL; any other value is kept. |
| Mvt.EffectiveTileType | pygeoapi/provider/mvt.py:99 | An empty or missing tile type becomes the configured format name; any other value is kept. |
| Mvt.DefaultServicePath | pygeoapi/provider/mvt.py:100-108 | The default service path is the data path up to its first `/{z}/{x}/{y}` (all of it when the marker is absent), then `/tiles/{tileMatrixSetId}/{tileMatrix}/{tileRow}/{tileCol}`, then the tile type. |
| Mvt.EffectiveServicePath | pygeoapi/provider/mvt.py:100-108 | A given service path is kept. Otherwise the path is the data path before `/{z}/{x}/{y}`, then `/tiles/{tileMatrixSetId}/{tileMatrix}/{tileRow}/{tileCol}`, then the tile type, with no separator before it. |
| Mvt.DefaultPathOfTemplate | pygeoapi/provider/mvt.py:96-108 | For data `scheme://netloc/<layer>/{z}/{x}/{y}...`, the origin is `scheme://netloc`. The default service path is `/<layer>/tiles/{tileMatrixSetId}/{tileMatrix}/{tileRow}/{tileCol}` followed by the tile type. The data URL must meet the same conditions as for `Mvt.LayerOfTemplate`. |
| Mvt.DefaultsAsExplicit | pygeoapi/provider/mvt.py:96-108 | Leaving out the base URL and service path gives the same description as passing the data URL's origin and the default service path explicitly. |
| Mvt.MetadataUrl | pygeoapi/provider/mvt.py:111-113 | `metadata` is resolved against the service URL cut before its first `{tileMatrix}/{tileRow}/{tileCol}`, or against the whole URL when that marker is absent. Its value for a directory base is given by `Mvt.ServiceLinksForPath`. |
| Mvt.GetTilesService | pygeoapi/provider/mvt.py:110-131 | Exactly two links, in order. First: `item`, typed with the mimetype, titled for vector tiles, templated, with href = the service path resolved against the base. Second: `describedby`, typed `application/json`, templated, with href = `metadata` resolved against the first href cut before `{tileMatrix}/{tileRow}/{tileCol}`, then `?f=json`. |
| Mvt.ServiceLinksForPath | pygeoapi/provider/mvt.py:110-126 | For base `scheme://netloc` and service path `<dir>{tileMatrix}/{tileRow}/{tileCol}<suffix>`, the item href is that path on the origin and the describedby href is `<origin><dir>metadata?f=json`. This holds for a netloc without `{` and a `dir` that starts and ends with `/`, has no doubled `/`, no dot segments, no `?`, `#`, `;`, tab, CR or LF, and does not contain `{tileMatrix}/{tileRow}/{tileCol}`. The suffix may not hold `?`, `#`, `;`, tab, CR or LF. |
| Mvt.DefaultServiceLinks | pygeoapi/provider/mvt.py:96-126 | With no base URL or service path, the item href is `scheme://netloc/<layer>/tiles/{tileMatrixSetId}/{tileMatrix}/{tileRow}/{tileCol}<tile type>`. The describedby href is `scheme://netloc/<layer>/tiles/{tileMatrixSetId}/metadata?f=json`, so it keeps the tile-matrix-set segment. |
| Mvt.TileFormat | pygeoapi/provider/mvt.py:147-148 | Format `mvt` is replaced by the configured format name; any other format, including none, passes through unchanged. |
| Mvt.NatDigits | pygeoapi/provider/mvt.py:153-155 | `str` of a natural number: at least one decimal digit, no leading zero, and the digits spell the number (`DigitsValue(r) == n`). |
| Mvt.IntText | pygeoapi/provider/mvt.py:153-155 | `str` of an integer: a `-` exactly when the number is negative, then at least one decimal digit with no leading zero, and those digits spell the magnitude. No `/` appears. |
| Mvt.TileRequestUrl | pygeoapi/provider/mvt.py:149-155 | The request URL starts with the data URL's `scheme://netloc` and a `/`. Its segments are fixed by `Mvt.TileRequestSegments`. |
| Mvt.RequestUrl | pygeoapi/provider/mvt.py:153-155 | `{base_url}/{lyr}/{z}/{y}/{x}.{f}` starts with `<base_url>/` and ends with `.<f>`. |
| Mvt.TileRequestSegments | pygeoapi/provider/mvt.py:149-155 | For a format without `/`, the request URL is the data URL's origin and a `/`. Then come the layer's own segments (a layer such as `tiles/v3` gives two), then `z`, `y`, and `x.<format>`. So `y` comes before `x`. |
| Mvt.RequestFourSegments | pygeoapi/provider/mvt.py:153-155 | With a layer, `z`, `y`, `x` and format free of `/`, the request path after `<base_url>/` has exactly four segments: layer, `z`, `y`, `x.<f>`. |
| Mvt.GetMetadata | pygeoapi/provider/mvt.py:159-170 | Always the one-key document `{"tilejson": "3.0.0"}`, whatever `tilejson` is. |
| Urls.UrlParse | pygeoapi/provider/mvt.py:64 | The parsed path never holds `?` or `#`. What it gives for the provider's URLs is fixed by `Urls.ParseSimpleUrl`. |
| Urls.UrlUnparse | pygeoapi/provider/mvt.py:110-113 | A non-empty scheme is put back at the front, followed by `:`. The full round trip is `Urls.UnparseSimpleUrl`. |
| Urls.UrlJoin | pygeoapi/provider/mvt.py:110-113 | An empty base gives the reference unchanged; an empty reference gives the base unchanged. Resolution of the references the provider uses is fixed by `Urls.JoinAbsolutePath` and `Urls.JoinRelativeSegment`. |
| Urls.ParseSimpleUrl | pygeoapi/provider/mvt.py:64 | `urlparse` of `scheme://netloc/path` (lower-case scheme; path without `?`, `#` or `;`; no tab, CR or LF) gives exactly that scheme, netloc and path, with empty params, query and fragment. |
| Urls.UnparseSimpleUrl | pygeoapi/provider/mvt.py:110 | `urlunparse` puts such components back into `scheme://netloc/path`. |
| Urls.JoinAbsolutePath | pygeoapi/provider/mvt.py:110 | Resolving an absolute path without dot segments against `scheme://netloc<path>` keeps scheme and authority and replaces the whole path. |
| Urls.MergeRelativeSegment | pygeoapi/provider/mvt.py:111-113 | For a base path without doubled `/` or dot segments, Python's merge of one relative segment equals the RFC 3986 merge. |
| Urls.JoinRelativeSegment | pygeoapi/provider/mvt.py:111-113 | Resolving one relative segment against `scheme://netloc<path>` gives `scheme://netloc` plus the base path up to and including its last `/`, then the segment. This holds when the base path has no doubled `/` and no dot segments, and the segment is not `.` or `..` and holds no `/`, `:`, `?`, `#`, `;`, tab, CR or LF. |
| Strings.Before | pygeoapi/provider/mvt.py:66 | For a non-empty separator (Python rejects an empty one), `s.split(sep)[0]` is a prefix of `s` that ends at the first occurrence of `sep`, or is all of `s` if `sep` does not occur. |

## Left out

- The HTTP session of `get_tiles` is network I/O and is not modelled: the warm-up request to the origin, the tile request, `raise_for_status` and returning the body. Only the format substitution and the request URL are modelled.
- No HTTP status is mapped to `ProviderTilesetIdNotFoundError`, because the code does not map one.
- The `tileset` argument of `get_tiles` and the `dirpath` argument of `get_tiles_service` are never read by the code. They are absent from the model or ignored by it.
- Logging and `__repr__` have no effect on results and are not modelled.
- `ProviderGenericError` is defined in `pygeoapi/provider/base.py`, which is not part of this model. It is an opaque root error class.
- `pygeoapi/model/collection.py` is a serialisation schema with no logic of its own and is not modelled.
- Provider definitions are Python dictionaries holding any values. The model types each value read, and a missing key is `None`.
- Urls.UrlParse: does not model four steps of CPython's `urlsplit`:
  - stripping leading C0 control characters and spaces;
  - removing tab, CR and LF;
  - the `ValueError` for malformed IPv6 brackets;
  - the NFKC netloc check.
  The lemmas about parsing (`Urls.ParseSimpleUrl` and those built on it) require URLs free of tab, CR and LF, so they do not depend on the second step.
- Urls.UrlJoin: proved only for what the provider resolves:
  - a base of the form `scheme://netloc/path` with a plain path; for a relative segment, also without doubled `/` or dot segments;
  - a reference that is an absolute path without dot segments, or a single relative segment (`metadata`), free of tab, CR and LF.
  Other base and reference shapes are defined but have no lemmas. For example, CPython resolves `metadata` against `http://h/a//b/` to `http://h/a/b/metadata` and against `http://h/a/./b` to `http://h/a/metadata`; no lemma states those results.
- Urls.JoinRelativeSegment: proved only for a base path without doubled `/` or dot segments (see `Urls.UrlJoin` above).
- Mvt.LayerOfTemplate: proved only for a layer without `{` and a data URL without query, fragment, `;params`, tab, CR or LF. Python also returns the layer for `https://h/tiles/v3/{z}/{x}/{y}.pbf?key=abc` and for a layer such as `a{b}`. The definitions cover those inputs (`Mvt.LayerOfPath` is specified for every path), but no lemma states their result for those shapes.
- Mvt.DefaultPathOfTemplate: proved under the same conditions as `Mvt.LayerOfTemplate`.
- Mvt.ServiceLinksForPath: proved only for a directory without doubled `/` or dot segments. For a doubled `/`, CPython's merge drops the empty segment (base `http://h`, service path `/a//b/{tileMatrix}/{tileRow}/{tileCol}` gives `http://h/a/b/metadata?f=json`). `Urls.UrlJoin` defines that merge, but no lemma states its result for such directories.
- Mvt.DefaultServiceLinks: proved for a one-segment layer free of `/`, `{`, `?`, `#`, `;` and dot segments, and a tile type free of `/`, `?`, `#`, `;`, tab, CR and LF. Other data URLs follow `GetTilesService`'s general contract only.
- Mvt.TileRequestSegments: renders `None` arguments as `None` and integers in decimal. Other argument types that Python's `str.format` accepts are not modelled.
- Python names its operations differently from the base class (`get_tiles_service` and `get_metadata` against `get_tile_services` and `get_metadata_services`). As in the code, neither overrides the other, and both sets are modelled.
- The constructor does not check `data` at all. The commented-out lines `pygeoapi/provider/mvt.py:54-57` would have raised `ProviderConnectionError` when `data` was not an existing file path; no `/{z}/{x}/{y}` check exists in the code. The model follows the code (`Tile.ConstructionIgnoresData`).

## Findings

| source | as written | input that shows it | evidently intended | confidence | as-written member | corrected member |
|---|---|---|---|---|---|---|
| pygeoapi/provider/mvt.py:79 | `get_tiling_schemes` filters on `self.schemes`, but construction stores the schemes as `self.tiling_schemes` (pygeoapi/provider/tile.py:53) and never sets `schemes`. | Any provider built from a complete definition, e.g. `schemes: [WebMercatorQuad]`: the call raises `AttributeError`. | Filter the catalog by the stored `tiling_schemes`. | not executed | Mvt.TilingSchemesAsWritten | Mvt.GetTilingSchemes |
