/**
 * Venue lookup in the Sanity content store (src/sanity.ts): a blank name is
 * answered with "no venue" at once; any other name is sent, unchanged, as the
 * `$name` parameter of one GROQ query, whose answer is passed through, and a
 * failed query is logged and turned into "no venue".
 *
 * The query itself runs on the server (including its case-insensitive
 * `match`); it is a parameter here, and the result records the queries issued.
 */
module Sanity {
  import opened Types

  /** The GROQ query text: the first venue whose name matches `$name`. */
  const VenueByNameQuery: string := "*[_type == \"venue\" && name match $name][0]"

  /** A venue document. `neighborhoodRef` is the `_ref` of `neighborhood`. */
  datatype Venue = Venue(
    id: string,
    name: string,
    address: Option<string>,
    website: Option<string>,
    neighborhoodRef: Option<string>)

  /** One call `client.fetch(query, { name })`. */
  datatype VenueQuery = VenueQuery(query: string, name: string)

  /** What the query settles to: a venue or `null`, or a rejection. */
  datatype QueryOutcome = Returned(venue: Option<Venue>) | Failed(error: string)

  /** One `console.error` call made for a failed query. */
  datatype LogEntry = LogEntry(venueName: string, error: string)

  /** The venue found (or none), with the queries issued and the errors logged. */
  datatype VenueLookup = VenueLookup(venue: Option<Venue>, queries: seq<VenueQuery>, logged: seq<LogEntry>)

  // ---------------------------------------------------------------------------
  // The blank-name guard: `!venueName || venueName.trim() === ''`

  /**
   * ECMAScript's WhiteSpace and LineTerminator characters, one by one: tab,
   * line feed, vertical tab, form feed, carriage return, space, no-break space,
   * the Unicode space separators, line and paragraph separator, and the
   * byte-order mark.
   */
  const JsWhitespace: set<char> := {
    '\t', '\n', '\U{B}', '\U{C}', '\r', ' ', '\U{A0}', '\U{1680}',
    '\U{2000}', '\U{2001}', '\U{2002}', '\U{2003}', '\U{2004}', '\U{2005}',
    '\U{2006}', '\U{2007}', '\U{2008}', '\U{2009}', '\U{200A}',
    '\U{2028}', '\U{2029}', '\U{202F}', '\U{205F}', '\U{3000}', '\U{FEFF}'
  }

  /** The characters `String.prototype.trim` removes. */
  predicate IsWhitespace(c: char): (ws: bool)
    ensures ws <==> c in JsWhitespace
  {
    || c == '\t' || c == '\n' || c == '\U{B}' || c == '\U{C}' || c == '\r' || c == ' '
    || c == '\U{A0}' || c == '\U{1680}' || ('\U{2000}' <= c <= '\U{200A}')
    || c == '\U{2028}' || c == '\U{2029}' || c == '\U{202F}' || c == '\U{205F}'
    || c == '\U{3000}' || c == '\U{FEFF}'
  }

  /** The string without its leading whitespace. */
  function TrimStart(s: string): (r: string)
    ensures |r| <= |s| && r == s[|s| - |r|..]
    ensures r != "" ==> !IsWhitespace(r[0])
    ensures forall k :: 0 <= k < |s| - |r| ==> IsWhitespace(s[k])
  {
    if s != "" && IsWhitespace(s[0]) then TrimStart(s[1..]) else s
  }

  /** The string without its trailing whitespace. */
  function TrimEnd(s: string): (r: string)
    ensures |r| <= |s| && r == s[..|r|]
    ensures r != "" ==> !IsWhitespace(r[|r| - 1])
    ensures forall k :: |r| <= k < |s| ==> IsWhitespace(s[k])
  {
    if s != "" && IsWhitespace(s[|s| - 1]) then TrimEnd(s[..|s| - 1]) else s
  }

  /** `r` is the part of `s` starting at `i`, and only whitespace lies outside it. */
  ghost predicate TrimmedAt(s: string, r: string, i: int)
  {
    && 0 <= i <= |s| - |r| && r == s[i..i + |r|]
    && (forall k :: 0 <= k < i ==> IsWhitespace(s[k]))
    && (forall k :: i + |r| <= k < |s| ==> IsWhitespace(s[k]))
  }

  /**
   * `s.trim()`: the part of `s` left after removing whitespace at both ends.
   * It neither starts nor ends with whitespace, and only whitespace lies
   * outside it.
   */
  function Trim(s: string): (r: string)
    ensures |r| <= |s|
    ensures r != "" ==> !IsWhitespace(r[0]) && !IsWhitespace(r[|r| - 1])
    ensures exists i :: TrimmedAt(s, r, i)
  {
    var start := TrimStart(s);
    var i := |s| - |start|;
    assert TrimmedAt(s, TrimEnd(start), i);
    TrimEnd(start)
  }

  /**
   * The guard of `findVenueByName`: the empty string, or one that trims to
   * empty. It holds exactly when every character of the name is whitespace.
   */
  predicate IsBlank(venueName: string): (blank: bool)
    ensures blank <==> forall k :: 0 <= k < |venueName| ==> IsWhitespace(venueName[k])
  {
    venueName == "" || Trim(venueName) == ""
  }

  // ---------------------------------------------------------------------------
  // The lookup

  /**
   * `findVenueByName(client, venueName)`. `fetch` stands for the Sanity query
   * endpoint. The function is total: every name and every query outcome gives
   * a venue or none, and a failed query never escapes.
   */
  function FindVenueByName(venueName: string, fetch: VenueQuery -> QueryOutcome): (lookup: VenueLookup)
    ensures (forall k :: 0 <= k < |venueName| ==> IsWhitespace(venueName[k])) ==>
      lookup == VenueLookup(None, [], [])
    ensures (exists k :: 0 <= k < |venueName| && !IsWhitespace(venueName[k])) ==>
      && lookup.queries == [VenueQuery(VenueByNameQuery, venueName)]
      && match fetch(lookup.queries[0])
         case Returned(v) => lookup.venue == v && lookup.logged == []
         case Failed(e) => lookup.venue == None && lookup.logged == [LogEntry(venueName, e)]
    ensures lookup.venue.Some? ==>
      && !IsBlank(venueName)
      && fetch(VenueQuery(VenueByNameQuery, venueName)) == Returned(lookup.venue)
  {
    if IsBlank(venueName) then VenueLookup(None, [], [])
    else
      var query := VenueQuery(VenueByNameQuery, venueName);
      match fetch(query)
      case Returned(venue) => VenueLookup(venue, [query], [])
      case Failed(error) => VenueLookup(None, [query], [LogEntry(venueName, error)])
  }

  /** The empty and all-space names of the tests give no venue and issue no query, whatever the store holds. */
  lemma BlankNamesIssueNoQuery(fetch: VenueQuery -> QueryOutcome)
    ensures FindVenueByName("", fetch) == VenueLookup(None, [], [])
    ensures FindVenueByName("   ", fetch) == VenueLookup(None, [], [])
    ensures FindVenueByName(" \t\n ", fetch) == VenueLookup(None, [], [])
  {
  }
}
