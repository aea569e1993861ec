/** The prominent-link block: a link to a chart is rewritten so that its `country`
    query parameter carries the entities it named plus the entities selected
    globally on the page. Splitting, parsing and serialising URLs and the
    entity-list encoding are left uninterpreted in `UrlCodec`. */
module ProminentLink {
  import opened Util

  type EntityName = string

  /** A parsed query parameter, in both its encodings. */
  datatype QueryParam = QueryParam(encoded: string, decoded: string)

  type QueryParams = map<string, QueryParam>

  /** Decoded parameter values, ready to serialise. */
  type RawQueryParams = map<string, string>

  /** The URL helpers and `EntityUrlBuilder`, as uninterpreted functions. */
  datatype UrlCodec = UrlCodec(
    pathOf: string -> string,
    queryStringOf: string -> Option<string>,
    strToQueryParams: string -> QueryParams,
    queryParamsToStr: RawQueryParams -> string,
    /** lodash `isEmpty` applied to a parsed parameter. */
    isEmptyParam: QueryParam -> bool,
    queryParamToEntityNames: QueryParam -> seq<EntityName>,
    entityNamesToQueryParam: seq<EntityName> -> string)

  /** The link's `href` and the page's global selection, if there is one. */
  datatype LinkProps = LinkProps(href: string, globalEntitySelection: Option<seq<EntityName>>)

  const CountryParam: string := "country"

  function OriginalURLPath(codec: UrlCodec, props: LinkProps): string {
    codec.pathOf(props.href)
  }

  /** `originalURLQueryParams`: parsed only when the query string is present and non-empty. */
  function OriginalURLQueryParams(codec: UrlCodec, props: LinkProps): (params: Option<QueryParams>)
    ensures params.Some? <==> codec.queryStringOf(props.href).Some? && codec.queryStringOf(props.href).value != ""
    ensures params.Some? ==> params.value == codec.strToQueryParams(codec.queryStringOf(props.href).value)
  {
    match codec.queryStringOf(props.href)
    case Some(queryString) =>
      if queryString != "" then Some(codec.strToQueryParams(queryString)) else None
    case None => None
  }

  /** The `country` parameter of the link, when it has one that is not empty. */
  predicate HasCountry(codec: UrlCodec, props: LinkProps) {
    var params := OriginalURLQueryParams(codec, props);
    params.Some? && CountryParam in params.value && !codec.isEmptyParam(params.value[CountryParam])
  }

  /** `originalURLSelectedEntities`: the decoded `country` parameter, or no
      entities when it is absent or empty. */
  function OriginalURLSelectedEntities(codec: UrlCodec, props: LinkProps): (names: seq<EntityName>)
    ensures !HasCountry(codec, props) ==> names == []
    ensures HasCountry(codec, props) ==>
      names == codec.queryParamToEntityNames(OriginalURLQueryParams(codec, props).value[CountryParam])
  {
    if HasCountry(codec, props)
    then codec.queryParamToEntityNames(OriginalURLQueryParams(codec, props).value[CountryParam])
    else []
  }

  /** `entitiesInGlobalEntitySelection`: no global selection reads as none selected. */
  function EntitiesInGlobalEntitySelection(props: LinkProps): (names: seq<EntityName>)
    ensures props.globalEntitySelection.None? ==> names == []
    ensures props.globalEntitySelection.Some? ==> names == props.globalEntitySelection.value
  {
    props.globalEntitySelection.GetOr([])
  }

  /** `newEntityList`: the link's entities followed by the global ones, deduplicated. */
  function NewEntityList(codec: UrlCodec, props: LinkProps): seq<EntityName> {
    Union(OriginalURLSelectedEntities(codec, props), EntitiesInGlobalEntitySelection(props))
  }

  /** The new list names every entity of either list and nothing else, each once:
      first the link's own entities in the order they first appear, then the
      global entities the link lacks, in the order they first appear. */
  lemma NewEntityListProperties(codec: UrlCodec, props: LinkProps)
    ensures var original := OriginalURLSelectedEntities(codec, props);
      var global := EntitiesInGlobalEntitySelection(props);
      var list := NewEntityList(codec, props);
      && NoDuplicates(list)
      && (forall i :: 0 <= i < |original| ==> original[i] in list)
      && (forall i :: 0 <= i < |global| ==> global[i] in list)
      && (forall i :: 0 <= i < |list| ==> list[i] in original || list[i] in global)
      && Dedup(original) <= list
      && (NoDuplicates(original) ==> original <= list)
      && list == Dedup(original) + Without(Dedup(global), original)
  {
    var original := OriginalURLSelectedEntities(codec, props);
    UnionProperties(original, EntitiesInGlobalEntitySelection(props));
    if NoDuplicates(original) {
      DedupOfDistinct(original);
    }
  }

  /** Without a `country` parameter and without a global selection the list is empty. */
  lemma NewEntityListEmpty(codec: UrlCodec, props: LinkProps)
    requires !HasCountry(codec, props) && (props.globalEntitySelection.None? || props.globalEntitySelection == Some([]))
    ensures NewEntityList(codec, props) == []
  {
    assert OriginalURLSelectedEntities(codec, props) + EntitiesInGlobalEntitySelection(props) == [];
  }

  function UpdatedEntityQueryParam(codec: UrlCodec, props: LinkProps): string {
    codec.entityNamesToQueryParam(NewEntityList(codec, props))
  }

  /** Every original parameter by its decoded value (none without a query string). */
  function DecodedOriginalParams(codec: UrlCodec, props: LinkProps): RawQueryParams {
    match OriginalURLQueryParams(codec, props)
    case None => map[]
    case Some(params) => map k | k in params :: params[k].decoded
  }

  /** `updatedURLParams`: every original parameter is kept with its decoded value,
      and `country` is overwritten by the new entity list only when that list
      encodes to a non-empty string. */
  function UpdatedURLParams(codec: UrlCodec, props: LinkProps): (params: RawQueryParams)
    ensures var original := OriginalURLQueryParams(codec, props);
      var entities := UpdatedEntityQueryParam(codec, props);
      && (forall k :: k in params <==>
            (original.Some? && k in original.value) || (k == CountryParam && entities != ""))
      && (forall k :: original.Some? && k in original.value && (k != CountryParam || entities == "") ==>
            params[k] == original.value[k].decoded)
      && (entities != "" ==> params[CountryParam] == entities)
  {
    var decoded := DecodedOriginalParams(codec, props);
    var entities := UpdatedEntityQueryParam(codec, props);
    if entities != "" then decoded[CountryParam := entities] else decoded
  }

  /** `updatedURL`: the original path followed by the serialised parameters. */
  function UpdatedURL(codec: UrlCodec, props: LinkProps): (url: string)
    ensures OriginalURLPath(codec, props) <= url
    ensures url[|OriginalURLPath(codec, props)|..] == codec.queryParamsToStr(UpdatedURLParams(codec, props))
  {
    var path := OriginalURLPath(codec, props);
    var query := codec.queryParamsToStr(UpdatedURLParams(codec, props));
    assert (path + query)[|path|..] == query;
    path + query
  }
}
