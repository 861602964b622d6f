/**
 * The generic tile provider of `pygeoapi/provider/tile.py`: the configuration
 * it copies out of a provider definition, the operations every tile provider
 * offers (which the base class leaves unimplemented) and the tile error classes.
 */
module Tile {
  import opened Wrappers

  /** The error classes of tile.py, with the generic provider error they refine. */
  datatype ProviderErrorClass =
    | ProviderGenericError
    | ProviderTileQueryError
    | ProviderTilesetIdNotFoundError

  /** The class each error class derives from, if it is one of the provider errors. */
  function Parent(c: ProviderErrorClass): Option<ProviderErrorClass>
  {
    match c
    case ProviderGenericError => None
    case ProviderTileQueryError => Some(ProviderGenericError)
    case ProviderTilesetIdNotFoundError => Some(ProviderTileQueryError)
  }

  /** How many derivations separate `c` from the root of the hierarchy. */
  function Depth(c: ProviderErrorClass): nat
  {
    match c
    case ProviderGenericError => 0
    case ProviderTileQueryError => 1
    case ProviderTilesetIdNotFoundError => 2
  }

  /** `issubclass(c, d)`: `d` is `c` or one of its ancestors, so `except d` catches `c`. */
  predicate IsSubclass(c: ProviderErrorClass, d: ProviderErrorClass)
    decreases Depth(c)
  {
    c == d || (Parent(c).Some? && IsSubclass(Parent(c).value, d))
  }

  /** The exceptions the modelled code raises. */
  datatype Error =
    | KeyError(key: string)
    | AttributeError(attribute: string)
    | NotImplementedError
    | Provider(cls: ProviderErrorClass)

  /** A tile matrix set a provider can serve, as `get_tiling_schemes` lists it. */
  datatype TileMatrixSetLink = TileMatrixSetLink(tileMatrixSet: string, tileMatrixSetUri: string)

  /** One link of a tile service description. */
  datatype Link = Link(mediaType: string, rel: string, title: string, href: string, templated: bool)

  /** The `{'links': [...]}` dictionary a tile service description is. */
  datatype ServiceDescription = ServiceDescription(links: seq<Link>)

  /**
   * The keys of `provider_def` that construction reads; `None` is a missing
   * key, and `format` is the nested dictionary whose `name` is read.
   */
  datatype ProviderDef = ProviderDef(
    name: Option<string>,
    data: Option<string>,
    format: Option<map<string, string>>,
    mimetype: Option<string>,
    schemes: Option<seq<string>>)

  /** The values construction copies onto the provider. */
  datatype ProviderConfig = ProviderConfig(
    name: string,
    data: string,
    formatType: string,
    mimetype: string,
    tilingSchemes: seq<string>)

  /**
   * The lookups of `BaseTileProvider.__init__`, in the order they are made:
   * the first missing key raises `KeyError`; nothing else is checked.
   */
  function ReadProviderDef(def: ProviderDef): (r: Result<ProviderConfig, Error>)
    ensures r.Success? <==>
      def.name.Some? && def.data.Some? && def.format.Some? && "name" in def.format.value
      && def.mimetype.Some? && def.schemes.Some?
    ensures r.Success? ==>
      && r.value.name == def.name.value
      && r.value.data == def.data.value
      && r.value.formatType == def.format.value["name"]
      && r.value.mimetype == def.mimetype.value
      && r.value.tilingSchemes == def.schemes.value
    ensures r.Failure? ==> r.error.KeyError? && exists i :: 0 <= i < |Lookups(def)| && FirstAbsent(def, i) && Lookups(def)[i].0 == r.error.key
  {
    if def.name.None? then assert FirstAbsent(def, 0); Failure(KeyError("name"))
    else if def.data.None? then assert FirstAbsent(def, 1); Failure(KeyError("data"))
    else if def.format.None? then assert FirstAbsent(def, 2); Failure(KeyError("format"))
    else if "name" !in def.format.value then assert FirstAbsent(def, 3); Failure(KeyError("name"))
    else if def.mimetype.None? then assert FirstAbsent(def, 4); Failure(KeyError("mimetype"))
    else if def.schemes.None? then assert FirstAbsent(def, 5); Failure(KeyError("schemes"))
    else Success(ProviderConfig(def.name.value, def.data.value, def.format.value["name"],
                                def.mimetype.value, def.schemes.value))
  }

  /** The lookups `__init__` makes, in order: each key with whether it is present. */
  function Lookups(def: ProviderDef): seq<(string, bool)>
  {
    [("name", def.name.Some?), ("data", def.data.Some?), ("format", def.format.Some?),
     ("name", def.format.Some? && "name" in def.format.value), ("mimetype", def.mimetype.Some?),
     ("schemes", def.schemes.Some?)]
  }

  /** Lookup `i` is the first to fail: its key is absent and every earlier one is present. */
  predicate FirstAbsent(def: ProviderDef, i: nat)
    requires i < |Lookups(def)|
  {
    !Lookups(def)[i].1 && forall j :: 0 <= j < i ==> Lookups(def)[j].1
  }

  /** `BaseTileProvider`: the fields `__init__` assigns, and the operations a tile provider offers. */
  class BaseTileProvider {
    var name: string
    var data: string
    var formatType: string
    var mimetype: string
    var tilingSchemes: seq<string>
    var fields: map<string, string>

    /** The configuration the fields hold. */
    function Config(): ProviderConfig
      reads this
    {
      ProviderConfig(name, data, formatType, mimetype, tilingSchemes)
    }

    /** The six assignments of `__init__`, once every lookup has succeeded. */
    constructor (cfg: ProviderConfig)
      ensures name == cfg.name && data == cfg.data && formatType == cfg.formatType
      ensures mimetype == cfg.mimetype && tilingSchemes == cfg.tilingSchemes
      ensures fields == map[]
      ensures Config() == cfg
    {
      name := cfg.name;
      data := cfg.data;
      formatType := cfg.formatType;
      mimetype := cfg.mimetype;
      tilingSchemes := cfg.tilingSchemes;
      fields := map[];
    }

    /** `BaseTileProvider(provider_def)`: a new provider, or the `KeyError` of the first missing key. */
    static method New(def: ProviderDef) returns (r: Result<BaseTileProvider, Error>)
      ensures r.Success? <==> ReadProviderDef(def).Success?
      ensures r.Success? ==> fresh(r.value) && r.value.Config() == ReadProviderDef(def).value
      ensures r.Success? ==> r.value.fields == map[]
      ensures r.Failure? ==> r.error == ReadProviderDef(def).error
    {
      match ReadProviderDef(def)
      case Success(cfg) =>
        var p := new BaseTileProvider(cfg);
        r := Success(p);
      case Failure(e) =>
        r := Failure(e);
    }

    /** `get_fields`: not implemented by the base class. */
    function GetFields(): (r: Result<map<string, string>, Error>)
      ensures r.Failure? && r.error == NotImplementedError
    {
      Failure(NotImplementedError)
    }

    /** `get_tiling_schemes`: not implemented by the base class. */
    function GetTilingSchemes(): (r: Result<seq<TileMatrixSetLink>, Error>)
      ensures r.Failure? && r.error == NotImplementedError
    {
      Failure(NotImplementedError)
    }

    /** `get_tile_services(baseurl, servicepath, tile_type)`: not implemented by the base class. */
    function GetTileServices(baseurl: Option<string>, servicepath: Option<string>, tileType: Option<string>)
      : (r: Result<ServiceDescription, Error>)
      ensures r.Failure? && r.error == NotImplementedError
    {
      Failure(NotImplementedError)
    }

    /** `get_tiles(layer, z, y, x, format)`: not implemented by the base class. */
    function GetTiles(layer: Option<string>, z: Option<int>, y: Option<int>, x: Option<int>, format: Option<string>)
      : (r: Result<seq<bv8>, Error>)
      ensures r.Failure? && r.error == NotImplementedError
    {
      Failure(NotImplementedError)
    }

    /** `get_metadata_services(baseurl, servicepath)`: not implemented by the base class. */
    function GetMetadataServices(baseurl: Option<string>, servicepath: Option<string>)
      : (r: Result<map<string, string>, Error>)
      ensures r.Failure? && r.error == NotImplementedError
    {
      Failure(NotImplementedError)
    }
  }

  /** Every tileset-not-found error is a tile query error and a generic provider error, but not conversely. */
  lemma TilesetNotFoundRefinesTileQuery()
    ensures IsSubclass(ProviderTilesetIdNotFoundError, ProviderTileQueryError)
    ensures IsSubclass(ProviderTilesetIdNotFoundError, ProviderGenericError)
    ensures !IsSubclass(ProviderTileQueryError, ProviderTilesetIdNotFoundError)
    ensures !IsSubclass(ProviderGenericError, ProviderTileQueryError)
  {
    assert IsSubclass(ProviderTileQueryError, ProviderGenericError);
  }

  /** Every provider error class is a `ProviderGenericError`: one handler for it catches them all. */
  lemma {:induction false} AllDeriveFromGeneric(c: ProviderErrorClass)
    ensures IsSubclass(c, ProviderGenericError)
    decreases Depth(c)
  {
    if Parent(c).Some? {
      AllDeriveFromGeneric(Parent(c).value);
    }
  }

  /** Subclassing is transitive: a handler for an ancestor catches every descendant. */
  lemma {:induction false} SubclassTransitive(a: ProviderErrorClass, b: ProviderErrorClass, c: ProviderErrorClass)
    requires IsSubclass(a, b) && IsSubclass(b, c)
    ensures IsSubclass(a, c)
    decreases Depth(a)
  {
    if a != b {
      SubclassTransitive(Parent(a).value, b, c);
    }
  }

  /**
   * Construction does not look at `data`: whatever the data URL is, with or
   * without a `/{z}/{x}/{y}` marker, the provider is built and keeps it as given.
   */
  lemma ConstructionIgnoresData(def: ProviderDef, data: string)
    requires ReadProviderDef(def).Success?
    ensures ReadProviderDef(def.(data := Some(data))).Success?
    ensures ReadProviderDef(def.(data := Some(data))).value
         == ReadProviderDef(def).value.(data := data)
  {
  }
}
