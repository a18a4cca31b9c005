/**
 * The part of the `query-string` library the link component uses, kept
 * abstract: a query is a map from keys to values, and `parse`, `parseUrl`
 * and `stringifyUrl` are supplied as a `Codec`. No concrete serialisation
 * (encoding, key order, array values, fragments) is fixed; the only thing
 * assumed of a codec is the law stated by `Lawful`.
 */
module QueryString {
  import opened Strings

  /** A parsed query string: key to value. */
  type Query = map<string, string>

  /** What `parseUrl` returns and `stringifyUrl` takes: the address before the query, and the query. */
  datatype ParsedUrl = ParsedUrl(url: string, query: Query)

  /** The three library entry points the component calls. */
  datatype Codec = Codec(
    parse: string -> Query,
    parseUrl: string -> ParsedUrl,
    stringifyUrl: ParsedUrl -> string)

  /**
   * Taking the address part that `parseUrl` found in `s`, attaching the query
   * `q` and stringifying gives a string that starts with that address and
   * parses back to exactly that address and query.
   */
  predicate Restringifies(c: Codec, s: string, q: Query) {
    var u := ParsedUrl(c.parseUrl(s).url, q);
    var out := c.stringifyUrl(u);
    StartsWith(out, u.url) && c.parseUrl(out) == u
  }

  /** The codec law: re-stringifying a parsed address with any query round-trips. */
  ghost predicate Lawful(c: Codec) {
    forall s, q :: Restringifies(c, s, q)
  }

  /**
   * Right-biased merge `{ ...base, ...overrides }`: every overriding key takes
   * its overriding value, every other key of `base` keeps its value, and no
   * other key appears.
   */
  function Merge(base: Query, overrides: Query): (m: Query)
    ensures m.Keys == base.Keys + overrides.Keys
    ensures forall k :: k in overrides ==> m[k] == overrides[k]
    ensures forall k :: k in base && k !in overrides ==> m[k] == base[k]
  {
    base + overrides
  }

  /** Merging the same overrides a second time changes nothing. */
  lemma MergeIdempotent(base: Query, overrides: Query)
    ensures Merge(Merge(base, overrides), overrides) == Merge(base, overrides)
  {
  }

  /**
   * `{ ...parsed, query: { ...parsed.query, ...overrides } }` stringified:
   * the address `s` with `overrides` merged into its query.
   */
  function OverrideQuery(c: Codec, s: string, overrides: Query): (out: string)
    requires Lawful(c)
    ensures c.parseUrl(out).url == c.parseUrl(s).url
    ensures c.parseUrl(out).query == Merge(c.parseUrl(s).query, overrides)
    ensures StartsWith(out, c.parseUrl(s).url)
  {
    var parsed := c.parseUrl(s);
    var merged := Merge(parsed.query, overrides);
    assert Restringifies(c, s, merged);
    c.stringifyUrl(ParsedUrl(parsed.url, merged))
  }

  /** Applying the same overrides twice gives the same string as applying them once. */
  lemma OverrideQueryIdempotent(c: Codec, s: string, overrides: Query)
    requires Lawful(c)
    ensures OverrideQuery(c, OverrideQuery(c, s, overrides), overrides) == OverrideQuery(c, s, overrides)
  {
    var once := OverrideQuery(c, s, overrides);
    MergeIdempotent(c.parseUrl(s).query, overrides);
    assert c.parseUrl(once) == ParsedUrl(c.parseUrl(s).url, Merge(c.parseUrl(s).query, overrides));
  }
}
