/**
 * The `Link` component: how it builds the destination (`href` and `as`)
 * and which of its six renderings it picks. React, Material UI and Next.js
 * are not modelled; the rendering is an `Outcome` record.
 */
module Link {
  import opened Wrappers
  import opened Strings
  import opened QueryString

  /** The component's inputs that take part in a decision; absent flags are `false`, an absent `urlParams` is `""`. */
  datatype LinkProps = LinkProps(
    href: Option<string>,
    asUrl: Option<string>,     // Next.js `as`
    dropUrlParams: bool,
    withoutMaterial: bool,
    underline: bool,
    isButton: bool,
    urlParams: string)

  /** The part of the Next.js router the component reads. */
  datatype Router = Router(asPath: string)

  /** The six renderings. */
  datatype Kind =
    | BareChildren      // only the children, no anchor
    | PlainAnchor       // a Next.js link without Material UI
    | ExternalButton    // a Material UI button opening a new tab
    | ExternalLink      // a Material UI link opening a new tab
    | InternalButton    // a Material UI button routed through Next.js
    | InternalLink      // a Material UI link routed through Next.js
  {
    predicate OpensNewTab() { this == ExternalButton || this == ExternalLink }
    predicate IsButton() { this == ExternalButton || this == InternalButton }
    predicate IsMaterialLink() { this == ExternalLink || this == InternalLink }
  }

  /** Material UI's `underline` property. */
  datatype Underline = Always | NoUnderline

  /** The rendering chosen and the attributes it carries; `None` is an attribute left unset. */
  datatype Outcome = Outcome(
    kind: Kind,
    href: string,
    asUrl: Option<string>,     // Next.js `as`
    underline: Option<Underline>,
    target: Option<string>,
    rel: Option<string>)

  const NewTab := "_blank"
  const SafeRel := "noopener noreferrer"
  const Http := "http://"
  const Https := "https://"

  /** The query string of the current route: `asPath.split('?')[1]`, `None` when `asPath` has no `?`. */
  function RouteQuery(asPath: string): (qs: Option<string>)
    ensures qs.Some? ==> '?' !in qs.value
  {
    var pieces := Split(asPath, '?');
    if |pieces| > 1 then Some(pieces[1]) else None
  }

  /**
   * The route's query string is exactly the text between the first `?` of
   * `asPath` and the next `?` (or the end), and there is none when `asPath`
   * has no `?`.
   */
  lemma {:induction false} RouteQueryBetweenMarks(asPath: string)
    ensures RouteQuery(asPath).None? <==> '?' !in asPath
    ensures RouteQuery(asPath).Some? ==>
      var i := IndexOf(asPath, '?');
      var after := asPath[i + 1..];
      RouteQuery(asPath).value == after[..IndexOf(after, '?')]
  {
    var i := IndexOf(asPath, '?');
    SplitAtFirst(asPath, '?');
    if i < |asPath| {
      SplitAtFirst(asPath[i + 1..], '?');
      assert |Split(asPath, '?')| > 1;
    } else {
      assert asPath[..i] == asPath;
    }
  }

  /** `props.href || ''`. */
  function InitialHref(href: Option<string>): (r: string)
    ensures href.Some? ==> r == href.value
    ensures href.None? ==> r == ""
  {
    if href.Some? && href.value != "" then href.value else ""
  }

  /**
   * Appending the current route's query string: skipped when `dropUrlParams`
   * is set, when there is no router, or when the route's query string is
   * missing or empty; otherwise joined with `&` if `href` already has a `?`
   * and with `?` if not.
   */
  function AppendRouteQuery(href: string, router: Option<Router>, dropUrlParams: bool): (r: string)
    ensures StartsWith(r, href)
    ensures dropUrlParams || router.None? ==> r == href
  {
    if !dropUrlParams && router.Some? then
      var qs := RouteQuery(router.value.asPath);
      if qs.Some? && qs.value != "" then
        href + (if '?' in href then "&" else "?") + qs.value
      else href
    else href
  }

  /**
   * With a router and without `dropUrlParams`, `href` gains exactly the
   * segment of `asPath` between its first `?` and the next, behind the right
   * separator, or stays as it was when that segment is missing or empty.
   */
  lemma AppendRouteQuerySegment(href: string, asPath: string)
    ensures
      var i := IndexOf(asPath, '?');
      var r := AppendRouteQuery(href, Some(Router(asPath)), false);
      if i == |asPath| then r == href
      else
        var after := asPath[i + 1..];
        var qs := after[..IndexOf(after, '?')];
        if qs == "" then r == href
        else if '?' in href then r == href + "&" + qs
        else r == href + "?" + qs
  {
    RouteQueryBetweenMarks(asPath);
  }

  /** After a non-empty query string is appended, the destination is never empty, even when `props.href` was. */
  lemma AppendedQueryIsNotEmpty(href: string, router: Option<Router>, dropUrlParams: bool)
    requires AppendRouteQuery(href, router, dropUrlParams) != href
    ensures AppendRouteQuery(href, router, dropUrlParams) != ""
    ensures '?' in AppendRouteQuery(href, router, dropUrlParams)
  {
  }

  /**
   * `if (urlParams)`: a non-empty `urlParams` is parsed and merged over the
   * query of `href`, the caller's keys winning; an empty one leaves `href`
   * untouched and unparsed.
   */
  function MergeUrlParams(c: Codec, href: string, urlParams: string): (r: string)
    requires Lawful(c)
    ensures urlParams == "" ==> r == href
    ensures urlParams != "" ==>
      && c.parseUrl(r).url == c.parseUrl(href).url
      && c.parseUrl(r).query.Keys == c.parseUrl(href).query.Keys + c.parse(urlParams).Keys
      && (forall k :: k in c.parse(urlParams) ==> c.parseUrl(r).query[k] == c.parse(urlParams)[k])
      && (forall k :: k in c.parseUrl(href).query && k !in c.parse(urlParams) ==>
            c.parseUrl(r).query[k] == c.parseUrl(href).query[k])
  {
    if urlParams != "" then OverrideQuery(c, href, c.parse(urlParams)) else href
  }

  /**
   * `as` is rewritten with the caller's parameters only when both `urlParams`
   * and `as` are non-empty; otherwise it is `props.as` unchanged.
   */
  function RewriteAs(c: Codec, asUrl: Option<string>, urlParams: string): (r: Option<string>)
    requires Lawful(c)
    ensures urlParams == "" || asUrl.None? || asUrl.value == "" ==> r == asUrl
    ensures urlParams != "" && asUrl.Some? && asUrl.value != "" ==>
      && r.Some?
      && c.parseUrl(r.value).url == c.parseUrl(asUrl.value).url
      && c.parseUrl(r.value).query == Merge(c.parseUrl(asUrl.value).query, c.parse(urlParams))
  {
    if urlParams != "" && asUrl.Some? && asUrl.value != "" then
      Some(OverrideQuery(c, asUrl.value, c.parse(urlParams)))
    else asUrl
  }

  /**
   * The final `href`: without `urlParams`, the initial `href` followed by
   * whatever the route contributed; with them, an address whose query is the
   * appended `href`'s query with the caller's parameters merged over it.
   */
  function DestinationHref(c: Codec, props: LinkProps, router: Option<Router>): (r: string)
    requires Lawful(c)
    ensures props.urlParams == "" ==> r == AppendRouteQuery(InitialHref(props.href), router, props.dropUrlParams)
    ensures props.urlParams == "" ==> StartsWith(r, InitialHref(props.href))
    ensures props.urlParams != "" ==>
      var appended := c.parseUrl(AppendRouteQuery(InitialHref(props.href), router, props.dropUrlParams));
      c.parseUrl(r) == ParsedUrl(appended.url, Merge(appended.query, c.parse(props.urlParams)))
  {
    MergeUrlParams(c, AppendRouteQuery(InitialHref(props.href), router, props.dropUrlParams), props.urlParams)
  }

  /**
   * A destination is external when it starts with a network scheme. An
   * external destination is never empty, and one that begins with its query
   * string (a missing `href` plus the route's query) is always internal.
   */
  predicate IsExternal(href: string)
    ensures IsExternal(href) ==> href != "" && StartsWith(href, "http")
    ensures href != "" && href[0] == '?' ==> !IsExternal(href)
  {
    StartsWith(href, Http) || StartsWith(href, Https)
  }

  /** Appending the route's query string never turns an external destination into an internal one. */
  lemma AppendKeepsExternal(href: string, router: Option<Router>, dropUrlParams: bool)
    requires IsExternal(href)
    ensures IsExternal(AppendRouteQuery(href, router, dropUrlParams))
  {
  }

  /**
   * Merging the caller's parameters keeps the address part of `href`, so a
   * scheme in that part survives: the merge cannot turn an external
   * destination into an internal one.
   */
  lemma MergeKeepsExternal(c: Codec, href: string, urlParams: string)
    requires Lawful(c)
    requires urlParams != "" && IsExternal(c.parseUrl(href).url)
    ensures IsExternal(MergeUrlParams(c, href, urlParams))
  {
  }

  /**
   * The caller's parameters win over everything already in `href`, including
   * the keys just copied from the current route; the route's other keys and
   * those of `props.href` stay as they were.
   */
  lemma CallerParamsWinOverRouteQuery(c: Codec, props: LinkProps, router: Option<Router>)
    requires Lawful(c)
    requires props.urlParams != ""
    ensures
      var before := c.parseUrl(AppendRouteQuery(InitialHref(props.href), router, props.dropUrlParams)).query;
      var after := c.parseUrl(DestinationHref(c, props, router)).query;
      var params := c.parse(props.urlParams);
      && after.Keys == before.Keys + params.Keys
      && (forall k :: k in params ==> after[k] == params[k])
      && (forall k :: k in before && k !in params ==> after[k] == before[k])
  {
  }

  /**
   * When `props.href` is missing or empty, a router exists, `dropUrlParams`
   * is unset and `urlParams` is empty, a non-empty route query string `qs`
   * still gives a destination, `"?" + qs`, so the component renders an anchor
   * rather than bare children.
   */
  lemma MissingHrefTakesRouteQuery(c: Codec, props: LinkProps, asPath: string)
    requires Lawful(c)
    requires InitialHref(props.href) == "" && !props.dropUrlParams && props.urlParams == ""
    requires RouteQuery(asPath).Some? && RouteQuery(asPath).value != ""
    ensures DestinationHref(c, props, Some(Router(asPath))) == "?" + RouteQuery(asPath).value
    ensures Choose(DestinationHref(c, props, Some(Router(asPath))), props.asUrl,
                   props.withoutMaterial, props.isButton, props.underline).kind != BareChildren
  {
  }

  /** `underline ? 'always' : 'none'`. */
  function UnderlineStyle(underline: bool): (u: Underline)
    ensures u == Always <==> underline
  {
    if underline then Always else NoUnderline
  }

  /**
   * The render cascade. No `href`: bare children. `withoutMaterial`: the
   * plain anchor, the only rendering that receives `as`. Otherwise the
   * destination's scheme decides external or internal and `isButton` decides
   * button or link; exactly the external renderings open a new tab with a
   * safe `rel`, and exactly the links carry the underline style.
   */
  function Choose(href: string, asUrl: Option<string>, withoutMaterial: bool, isButton: bool, underline: bool): (o: Outcome)
    ensures o.kind == BareChildren <==> href == ""
    ensures o.kind != BareChildren ==> o.href == href
    ensures o.kind == PlainAnchor <==> href != "" && withoutMaterial
    ensures o.asUrl == (if o.kind == PlainAnchor then asUrl else None)
    ensures o.kind.OpensNewTab() <==> href != "" && !withoutMaterial && IsExternal(href)
    ensures o.kind.IsButton() <==> href != "" && !withoutMaterial && isButton
    ensures o.target == (if o.kind.OpensNewTab() then Some(NewTab) else None)
    ensures o.rel == (if o.kind.OpensNewTab() then Some(SafeRel) else None)
    ensures o.underline == (if o.kind.IsMaterialLink() then Some(UnderlineStyle(underline)) else None)
  {
    if href == "" then Outcome(BareChildren, "", None, None, None, None)
    else if withoutMaterial then Outcome(PlainAnchor, href, asUrl, None, None, None)
    else if IsExternal(href) then
      if isButton then Outcome(ExternalButton, href, None, None, Some(NewTab), Some(SafeRel))
      else Outcome(ExternalLink, href, None, Some(UnderlineStyle(underline)), Some(NewTab), Some(SafeRel))
    else if isButton then Outcome(InternalButton, href, None, None, None, None)
    else Outcome(InternalLink, href, None, Some(UnderlineStyle(underline)), None, None)
  }

  /**
   * The component itself, step by step as written: `href` and `as` are
   * reassigned by the appending and merging stages, then the render cascade
   * picks the rendering.
   */
  method Link(c: Codec, props: LinkProps, router: Option<Router>) returns (o: Outcome)
    requires Lawful(c)
    ensures o == Choose(DestinationHref(c, props, router), RewriteAs(c, props.asUrl, props.urlParams),
                        props.withoutMaterial, props.isButton, props.underline)
    ensures o.target.Some? || o.rel.Some? ==> IsExternal(o.href)
  {
    var href := if props.href.Some? && props.href.value != "" then props.href.value else "";
    var asUrl := props.asUrl;

    if !props.dropUrlParams && router.Some? {
      var pieces := Split(router.value.asPath, '?');
      if |pieces| > 1 && pieces[1] != "" {
        var urlQuerystring := pieces[1];
        href := href + (if '?' in href then "&" else "?") + urlQuerystring;
      }
    }
    assert href == AppendRouteQuery(InitialHref(props.href), router, props.dropUrlParams);

    if props.urlParams != "" {
      var parsedUrlParams := c.parse(props.urlParams);
      var parsedHref := c.parseUrl(href);
      href := c.stringifyUrl(ParsedUrl(parsedHref.url, Merge(parsedHref.query, parsedUrlParams)));
      if asUrl.Some? && asUrl.value != "" {
        var parsedAs := c.parseUrl(asUrl.value);
        asUrl := Some(c.stringifyUrl(ParsedUrl(parsedAs.url, Merge(parsedAs.query, parsedUrlParams))));
      }
    }
    assert href == DestinationHref(c, props, router);
    assert asUrl == RewriteAs(c, props.asUrl, props.urlParams);

    o := Choose(href, asUrl, props.withoutMaterial, props.isButton, props.underline);
  }
}
