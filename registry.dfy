/** The agent-card MCP server with its I/O taken out: the SELECT-only guard of
    the travel-database tool, the card loader, the card-listing and
    card-lookup resources, and the mocked places tool. */
module Registry {
  import opened Wrappers
  import opened Json

  // ---------------------------------------------------------------------------
  // Strings as Python's str methods see them

  /** `c.isspace()` in Python. */
  predicate IsSpace(c: char) {
    var n := c as int;
    (9 <= n <= 13) || (0x1C <= n <= 0x20) || n == 0x85 || n == 0xA0 || n == 0x1680
    || (0x2000 <= n <= 0x200A) || n == 0x2028 || n == 0x2029 || n == 0x202F
    || n == 0x205F || n == 0x3000
  }

  predicate AllSpace(s: string) {
    forall i :: 0 <= i < |s| ==> IsSpace(s[i])
  }

  /** `s.lstrip()` */
  function LStrip(s: string): (r: string)
    ensures |r| <= |s| && r == s[|s| - |r|..]
    ensures AllSpace(s[..|s| - |r|])
    ensures r == [] || !IsSpace(r[0])
  {
    if s == [] then []
    else if IsSpace(s[0]) then
      var r := LStrip(s[1..]);
      assert s[1..][..|s| - 1 - |r|] == s[1..|s| - |r|];
      r
    else s
  }

  /** `s.rstrip()` */
  function RStrip(s: string): (r: string)
    ensures |r| <= |s| && r == s[..|r|]
    ensures AllSpace(s[|r|..])
    ensures r == [] || !IsSpace(r[|r| - 1])
  {
    if s == [] then []
    else if IsSpace(s[|s| - 1]) then
      var r := RStrip(s[..|s| - 1]);
      assert s[|r|..] == s[..|s| - 1][|r|..] + [s[|s| - 1]];
      r
    else s
  }

  /** `s.strip()`: what `lstrip` keeps, less its trailing whitespace. With
      the contract of LStrip this fixes the value: the slice of `s` between
      its leading and its trailing whitespace. */
  function Strip(s: string): (r: string)
    ensures var t := LStrip(s); |r| <= |t| && r == t[..|r|] && AllSpace(t[|r|..])
    ensures r == [] || (!IsSpace(r[0]) && !IsSpace(r[|r| - 1]))
    ensures r == [] <==> AllSpace(s)
  {
    var t := LStrip(s);
    var r := RStrip(t);
    assert r == [] ==> t == [];
    assert t == [] ==> s == s[..|s| - |t|];
    r
  }

  /** `c.upper()` under Python's full case mapping, for every code point
      whose upper-case form begins with one of the letters S, E, L, C, T:
      a-z, U+017F (long s, to S), U+00DF (sharp s, to SS), U+FB05 and U+FB06
      (the st ligatures, to ST) and U+1E97 (t with diaeresis, to T followed
      by U+0308). Every other code point is kept as it is. */
  function UpperOf(c: char): (u: string)
    ensures 1 <= |u| <= 2
    ensures |u| == 2 ==> u in {"SS", "ST", "T\U{0308}"}
    ensures IsSpace(c) ==> u == [c]
  {
    if 'a' <= c <= 'z' then [(c as int - 32) as char]
    else if c == '\U{017F}' then "S"
    else if c == '\U{00DF}' then "SS"
    else if c == '\U{FB05}' || c == '\U{FB06}' then "ST"
    else if c == '\U{1E97}' then "T\U{0308}"
    else [c]
  }

  /** `s.upper()`: each character's upper-case form, in order. */
  function Upper(s: string): (r: string)
    ensures |s| <= |r| <= 2 * |s|
  {
    if s == [] then [] else UpperOf(s[0]) + Upper(s[1..])
  }

  /** `c.lower()` for A-Z. */
  function LowerChar(c: char): (l: char)
    ensures l == c || ('A' <= c <= 'Z' && 'a' <= l <= 'z')
  {
    if 'A' <= c <= 'Z' then (c as int + 32) as char else c
  }

  /** Lower-casing a character keeps whitespace whitespace and does not change
      its upper-case form. */
  lemma LowerCharKeeps(c: char)
    ensures IsSpace(LowerChar(c)) <==> IsSpace(c)
    ensures UpperOf(LowerChar(c)) == UpperOf(c)
  {
  }

  function Lower(s: string): (r: string)
    ensures |r| == |s| && forall i :: 0 <= i < |s| ==> r[i] == LowerChar(s[i])
  {
    seq(|s|, i requires 0 <= i < |s| => LowerChar(s[i]))
  }

  predicate StartsWith(s: string, prefix: string) {
    |prefix| <= |s| && s[..|prefix|] == prefix
  }

  predicate EndsWith(s: string, suffix: string) {
    |suffix| <= |s| && s[|s| - |suffix|..] == suffix
  }

  // ---------------------------------------------------------------------------
  // The SELECT-only guard of query_travel_data

  datatype QueryError = IncorrectQuery(message: string)

  const Keyword := "SELECT"

  /** Python's `upper` turns `t` into a string that starts with SELECT:
      the first five characters upper-case to S, E, L, E, C one for one, and
      the sixth to a form that begins with T. */
  predicate SelectFirst(t: string) {
    && |t| >= 6
    && UpperOf(t[0]) == "S" && UpperOf(t[1]) == "E" && UpperOf(t[2]) == "L"
    && UpperOf(t[3]) == "E" && UpperOf(t[4]) == "C" && UpperOf(t[5])[0] == 'T'
  }

  /** Whether the upper-cased `t` starts with `w`, read one character of `t`
      at a time. */
  predicate UpperMatches(t: string, w: string)
    decreases |w|
  {
    if w == [] then true
    else if t == [] then false
    else
      var u := UpperOf(t[0]);
      if |w| <= |u| then u[..|w|] == w
      else u == w[..|u|] && UpperMatches(t[1..], w[|u|..])
  }

  lemma {:induction false} UpperMatchesPrefix(t: string, w: string)
    ensures StartsWith(Upper(t), w) <==> UpperMatches(t, w)
    decreases |t|
  {
    if w != [] && t != [] {
      var u := UpperOf(t[0]);
      var rest := Upper(t[1..]);
      assert Upper(t) == u + rest;
      if |w| <= |u| {
        assert (u + rest)[..|w|] == u[..|w|];
      } else {
        UpperMatchesPrefix(t[1..], w[|u|..]);
        assert w == w[..|u|] + w[|u|..];
        if |w| <= |u + rest| {
          var p := (u + rest)[..|w|];
          assert p == u + rest[..|w| - |u|];
          assert p[..|u|] == u && p[|u|..] == rest[..|w| - |u|];
        }
      }
    }
  }

  /** Where no two-character upper-case form (SS, ST, or T with a diaeresis)
      can start `w`, the first character of `t` must upper-case to exactly
      the first letter of `w`. */
  lemma UpperMatchesStep(t: string, w: string)
    requires |w| >= 2 && w[0] != 'T' && (w[0] == 'S' ==> w[1] != 'S' && w[1] != 'T')
    ensures UpperMatches(t, w) <==> |t| > 0 && UpperOf(t[0]) == [w[0]] && UpperMatches(t[1..], w[1..])
  {
    if t != [] {
      var u := UpperOf(t[0]);
      if |u| == 2 {
        assert u[0] == 'S' || u[0] == 'T';
        assert u[0] == 'S' ==> u[1] == 'S' || u[1] == 'T';
        assert u[0] != w[0] || u[1] != w[1];
      } else {
        assert u == [w[0]] <==> u == w[..1];
      }
    }
  }

  // The keyword matched one letter at a time, from its end towards its start.

  lemma MatchCT(t: string)
    ensures UpperMatches(t, "CT") <==> |t| >= 2 && UpperOf(t[0]) == "C" && UpperOf(t[1])[0] == 'T'
  {
    UpperMatchesStep(t, "CT");
    if |t| > 1 {
      assert t[1..][0] == t[1];
    }
  }

  lemma MatchECT(t: string)
    ensures UpperMatches(t, "ECT") <==>
      |t| >= 3 && UpperOf(t[0]) == "E" && UpperOf(t[1]) == "C" && UpperOf(t[2])[0] == 'T'
  {
    UpperMatchesStep(t, "ECT");
    if |t| > 0 {
      MatchCT(t[1..]);
    }
  }

  lemma MatchLECT(t: string)
    ensures UpperMatches(t, "LECT") <==>
      |t| >= 4 && UpperOf(t[0]) == "L" && UpperOf(t[1]) == "E" && UpperOf(t[2]) == "C" && UpperOf(t[3])[0] == 'T'
  {
    UpperMatchesStep(t, "LECT");
    if |t| > 0 {
      MatchECT(t[1..]);
    }
  }

  lemma MatchELECT(t: string)
    ensures UpperMatches(t, "ELECT") <==>
      |t| >= 5 && UpperOf(t[0]) == "E" && UpperOf(t[1]) == "L" && UpperOf(t[2]) == "E" && UpperOf(t[3]) == "C"
      && UpperOf(t[4])[0] == 'T'
  {
    UpperMatchesStep(t, "ELECT");
    if |t| > 0 {
      MatchLECT(t[1..]);
    }
  }

  lemma UpperStartsWith(t: string)
    ensures StartsWith(Upper(t), Keyword) <==> SelectFirst(t)
  {
    UpperMatchesPrefix(t, Keyword);
    UpperMatchesStep(t, "SELECT");
    if |t| > 0 {
      MatchELECT(t[1..]);
    }
  }

  /** Cutting trailing whitespace off `t` never touches the keyword: the
      sixth character of a SELECT is not whitespace. */
  lemma TrailingSpaceKeepsKeyword(t: string, r: string)
    requires |r| <= |t| && r == t[..|r|] && AllSpace(t[|r|..])
    ensures SelectFirst(r) <==> SelectFirst(t)
  {
    if SelectFirst(t) {
      assert !IsSpace(t[5]);
    }
    if |r| >= 6 {
      assert r[0] == t[0] && r[1] == t[1] && r[2] == t[2] && r[3] == t[3] && r[4] == t[4] && r[5] == t[5];
    }
  }

  /** Stripping trailing whitespace never removes the keyword, so only the
      leading whitespace that `strip` removes matters to the guard. */
  lemma SelectAfterStrip(q: string)
    ensures StartsWith(Upper(Strip(q)), Keyword) <==> SelectFirst(LStrip(q))
  {
    UpperStartsWith(Strip(q));
    TrailingSpaceKeepsKeyword(LStrip(q), Strip(q));
  }

  /** The check `query_travel_data` makes before it touches the database:
      an empty query, or one whose stripped, upper-cased text does not start
      with SELECT, raises ValueError; any other reaches the database unchanged. */
  function CheckTravelQuery(query: string): (r: Result<string, QueryError>)
    ensures r.Success? <==> SelectFirst(LStrip(query))
    ensures r.Success? ==> r.value == query
    ensures r.Failure? ==> r.error == IncorrectQuery("In correct query " + query)
  {
    SelectAfterStrip(query);
    if query == [] || !StartsWith(Upper(Strip(query)), Keyword) then
      Failure(IncorrectQuery("In correct query " + query))
    else
      Success(query)
  }

  /** The empty query is rejected. */
  lemma EmptyQueryRejected()
    ensures CheckTravelQuery("").Failure?
  {
  }

  lemma {:induction false} LStripSkipsSpace(ws: string, q: string)
    requires AllSpace(ws)
    ensures LStrip(ws + q) == LStrip(q)
    decreases |ws|
  {
    if ws != [] {
      assert (ws + q)[0] == ws[0];
      assert (ws + q)[1..] == ws[1..] + q;
      LStripSkipsSpace(ws[1..], q);
    } else {
      assert ws + q == q;
    }
  }

  /** Leading whitespace in front of a query never changes the guard's verdict. */
  lemma LeadingSpaceTolerated(ws: string, q: string)
    requires AllSpace(ws)
    ensures CheckTravelQuery(ws + q).Success? <==> CheckTravelQuery(q).Success?
  {
    LStripSkipsSpace(ws, q);
  }

  lemma {:induction false} LStripLower(q: string)
    ensures LStrip(Lower(q)) == Lower(LStrip(q))
    decreases |q|
  {
    if q != [] {
      LowerCharKeeps(q[0]);
      assert Lower(q)[1..] == Lower(q[1..]);
      LStripLower(q[1..]);
    }
  }

  lemma SelectFirstLower(t: string)
    ensures SelectFirst(Lower(t)) <==> SelectFirst(t)
  {
    forall i | 0 <= i < |t| ensures UpperOf(Lower(t)[i]) == UpperOf(t[i]) {
      LowerCharKeeps(t[i]);
    }
  }

  /** Lower-casing a query never changes the guard's verdict. */
  lemma CaseTolerated(q: string)
    ensures CheckTravelQuery(Lower(q)).Success? <==> CheckTravelQuery(q).Success?
  {
    LStripLower(q);
    SelectFirstLower(LStrip(q));
  }

  lemma LongSExample()
    ensures CheckTravelQuery("\U{017F}elect 1").Success?
  {
    var q := "\U{017F}elect 1";
    assert !IsSpace(q[0]);
    assert LStrip(q) == q;
  }

  lemma BlankQueryExample()
    ensures CheckTravelQuery("   ").Failure?
  {
    var q := "   ";
    assert LStrip(q[2..]) == [];
    assert LStrip(q[1..]) == [];
  }

  lemma OtherStatementExample()
    ensures CheckTravelQuery("DELETE FROM flights").Failure?
  {
    var q := "DELETE FROM flights";
    assert !IsSpace(q[0]);
    assert LStrip(q) == q;
    assert UpperOf(q[0]) != "S";
  }

  /** U+1E97 upper-cases to T followed by a combining diaeresis, so the
      upper-cased query still starts with SELECT and passes. */
  lemma DiaeresisTExample()
    ensures CheckTravelQuery("SELEC\U{1E97} 1").Success?
  {
    var q := "SELEC\U{1E97} 1";
    assert !IsSpace(q[0]);
    assert LStrip(q) == q;
    assert q[0] == 'S' && q[1] == 'E' && q[2] == 'L' && q[3] == 'E' && q[4] == 'C' && q[5] == '\U{1E97}';
    assert UpperOf(q[5]) == "T\U{0308}";
    assert SelectFirst(q);
  }

  // ---------------------------------------------------------------------------
  // load_agent_cards over an abstract directory listing

  /** One name returned by the directory listing: whether it is a regular
      file, and the JSON it parsed to (None when opening, reading or parsing
      raised). */
  datatype DirEntry = DirEntry(name: string, isFile: bool, parsed: Option<Json>)

  datatype LoadedCard = LoadedCard(uri: string, card: Json)

  const CardUriPrefix := "resource://agent_cards/"

  /** `name.rfind('.')` */
  function LastDot(name: string): (i: int)
    ensures -1 <= i < |name|
    ensures i >= 0 ==> name[i] == '.'
    ensures forall j :: i < j < |name| ==> name[j] != '.'
  {
    if name == [] then -1
    else if name[|name| - 1] == '.' then |name| - 1
    else LastDot(name[..|name| - 1])
  }

  /** `Path(name).stem`: the name without its final suffix. A suffix starts at
      the last dot, which must be neither the first nor the last character. */
  function Stem(name: string): (r: string)
    ensures StartsWith(name, r)
    ensures r != name <==> 0 < LastDot(name) < |name| - 1
    ensures r == name || (0 < |r| < |name| - 1 && name[|r|] == '.'
                          && forall j :: |r| < j < |name| ==> name[j] != '.')
  {
    var i := LastDot(name);
    if 0 < i < |name| - 1 then name[..i] else name
  }

  predicate IsJsonName(name: string) {
    EndsWith(Lower(name), ".json")
  }

  function CardUri(name: string): (u: string)
    ensures StartsWith(u, CardUriPrefix) && |u| <= |CardUriPrefix| + |name|
  {
    CardUriPrefix + Stem(name)
  }

  /** A .json name loses exactly its last five characters, unless it is the
      bare `.json`, whose stem is itself. */
  lemma JsonStem(name: string)
    requires IsJsonName(name)
    ensures |name| > 5 ==> Stem(name) == name[..|name| - 5]
    ensures |name| == 5 ==> Stem(name) == name
  {
    var n := |name|;
    assert Lower(name)[n - 5..] == ".json";
    assert Lower(name)[n - 5] == '.' && name[n - 5] == '.';
    forall j | n - 5 < j < n ensures name[j] != '.' {
      assert Lower(name)[j] != '.';
    }
    assert LastDot(name) == n - 5;
  }

  /** The URI of a `.json` card file is the prefix followed by the name
      without its `.json` (the bare `.json` keeps it). */
  lemma JsonCardUri(name: string)
    requires IsJsonName(name)
    ensures |name| > 5 ==> CardUri(name) == CardUriPrefix + name[..|name| - 5]
    ensures |name| == 5 ==> CardUri(name) == CardUriPrefix + name
  {
    JsonStem(name);
  }

  /** An entry the loader keeps: a .json name (any case), a regular file,
      contents that parsed. */
  predicate Loads(e: DirEntry) {
    IsJsonName(e.name) && e.isFile && e.parsed.Some?
  }

  /** What one entry contributes to the loader's two lists. */
  function LoadEntry(e: DirEntry): (r: seq<LoadedCard>)
    ensures |r| <= 1
  {
    if Loads(e) then [LoadedCard(CardUri(e.name), e.parsed.value)] else []
  }

  /** The (uri, card) pairs the loader collects from a listing, in listing order. */
  function Loaded(entries: seq<DirEntry>): (r: seq<LoadedCard>)
    ensures |r| <= |entries|
  {
    if entries == [] then []
    else Loaded(entries[..|entries| - 1]) + LoadEntry(entries[|entries| - 1])
  }

  /** The two lists read side by side as (uri, card) pairs. */
  function Pairs(uris: seq<string>, cards: seq<Json>): (r: seq<LoadedCard>)
    requires |uris| == |cards|
    ensures |r| == |uris| && forall k :: 0 <= k < |r| ==> r[k] == LoadedCard(uris[k], cards[k])
  {
    seq(|uris|, k requires 0 <= k < |uris| => LoadedCard(uris[k], cards[k]))
  }

  /** Appending one URI and one card appends their pair. */
  lemma PairsAppend(uris: seq<string>, cards: seq<Json>, u: string, c: Json)
    requires |uris| == |cards|
    ensures Pairs(uris + [u], cards + [c]) == Pairs(uris, cards) + [LoadedCard(u, c)]
  {
    assert Pairs(uris + [u], cards + [c])[|uris|] == LoadedCard(u, c);
  }

  /** `load_agent_cards`: URIs and cards are appended together, so the two
      lists stay index-aligned. */
  method LoadAgentCards(entries: seq<DirEntry>) returns (cardUris: seq<string>, agentCards: seq<Json>)
    ensures |cardUris| == |agentCards| == |Loaded(entries)|
    ensures forall k :: 0 <= k < |cardUris| ==> Loaded(entries)[k] == LoadedCard(cardUris[k], agentCards[k])
  {
    cardUris, agentCards := [], [];
    for i := 0 to |entries|
      invariant |cardUris| == |agentCards|
      invariant Pairs(cardUris, agentCards) == Loaded(entries[..i])
    {
      LoadedStep(entries, i);
      var e := entries[i];
      if IsJsonName(e.name) && e.isFile {
        match e.parsed
        case Some(data) =>
          PairsAppend(cardUris, agentCards, CardUriPrefix + Stem(e.name), data);
          cardUris := cardUris + [CardUriPrefix + Stem(e.name)];
          agentCards := agentCards + [data];
        case None =>
      }
    }
    assert entries[..|entries|] == entries;
  }

  /** The loader's lists after entry `i` are those before it plus what entry
      `i` contributes. */
  lemma LoadedStep(entries: seq<DirEntry>, i: nat)
    requires i < |entries|
    ensures Loaded(entries[..i + 1]) == Loaded(entries[..i]) + LoadEntry(entries[i])
  {
    assert entries[..i + 1][..i] == entries[..i];
  }

  lemma {:induction false} LoadedAppend(a: seq<DirEntry>, b: seq<DirEntry>)
    ensures Loaded(a + b) == Loaded(a) + Loaded(b)
    decreases |b|
  {
    if b == [] {
      assert a + b == a;
    } else {
      var b' := b[..|b| - 1];
      assert (a + b)[..|a + b| - 1] == a + b';
      assert (a + b)[|a + b| - 1] == b[|b| - 1];
      LoadedAppend(a, b');
    }
  }

  /** Every loaded card comes from an entry the loader keeps (the `j`-th),
      with the URI built from that entry's file stem. */
  lemma {:induction false} LoadedFrom(entries: seq<DirEntry>, k: nat) returns (j: nat)
    requires k < |Loaded(entries)|
    ensures j < |entries| && Loads(entries[j])
    ensures Loaded(entries)[k] == LoadedCard(CardUri(entries[j].name), entries[j].parsed.value)
    decreases |entries|
  {
    var init := entries[..|entries| - 1];
    var last := entries[|entries| - 1];
    assert Loaded(entries) == Loaded(init) + LoadEntry(last);
    if k < |Loaded(init)| {
      j := LoadedFrom(init, k);
      assert entries[j] == init[j];
    } else {
      j := |entries| - 1;
      assert LoadEntry(last) != [];
    }
  }

  /** One entry between two stretches of the listing contributes its own
      part, after everything before it and before everything after it. */
  lemma LoadedSplit(a: seq<DirEntry>, e: DirEntry, b: seq<DirEntry>)
    ensures Loaded(a + [e] + b) == Loaded(a) + LoadEntry(e) + Loaded(b)
  {
    LoadedAppend(a + [e], b);
    assert (a + [e])[..|a|] == a;
  }

  /** Every entry the loader keeps is loaded, in listing order. */
  lemma LoadedKeeps(a: seq<DirEntry>, e: DirEntry, b: seq<DirEntry>)
    requires Loads(e)
    ensures Loaded(a + [e] + b) == Loaded(a) + [LoadedCard(CardUri(e.name), e.parsed.value)] + Loaded(b)
  {
    LoadedSplit(a, e, b);
  }

  /** An entry the loader does not keep adds to neither list. */
  lemma LoadedSkips(a: seq<DirEntry>, e: DirEntry, b: seq<DirEntry>)
    requires !Loads(e)
    ensures Loaded(a + [e] + b) == Loaded(a + b)
  {
    LoadedSplit(a, e, b);
    LoadedAppend(a, b);
  }

  // ---------------------------------------------------------------------------
  // The card table the resources read

  /** The table built from the loaded cards: URIs and cards side by side. */
  datatype Catalog = Catalog(uris: seq<string>, cards: seq<Json>)

  /** `build_agent_card_embeddings`: no table (None) when no card was loaded or
      when computing an embedding raised; `embedded` says whether every
      embedding call succeeded. */
  function BuildCatalog(uris: seq<string>, cards: seq<Json>, embedded: bool): (r: Option<Catalog>)
    requires |uris| == |cards|
    ensures r.Some? <==> |cards| > 0 && embedded
    ensures r.Some? ==> r.value.uris == uris && r.value.cards == cards
  {
    if |cards| > 0 && embedded then Some(Catalog(uris, cards)) else None
  }

  /** Subscripting the table when it is None raises TypeError. */
  datatype ResourceError = NoCatalog

  /** Reads the `agent_cards` list of a `get_agent_cards` answer. */
  function ListedUris(j: Json): Option<seq<string>> {
    match Field(j, "agent_cards")
    case Some(JArray(items)) => StringsFrom(items)
    case _ => None
  }

  /** `get_agent_cards`: every card URI, in load order, under `agent_cards`. */
  function GetAgentCards(catalog: Option<Catalog>): (r: Result<Json, ResourceError>)
    ensures r.Success? <==> catalog.Some?
    ensures r.Success? ==> ListedUris(r.value) == Some(catalog.value.uris)
  {
    match catalog
    case None => Failure(NoCatalog)
    case Some(c) =>
      StringsRoundTrip(c.uris);
      Success(JObject([("agent_cards", JArray(Strings(c.uris)))]))
  }

  /** The cards whose URI is `target`, in table order. */
  function MatchingCards(uris: seq<string>, cards: seq<Json>, target: string): (r: seq<Json>)
    requires |uris| == |cards|
    ensures |r| <= |cards|
    ensures forall c :: c in r ==> exists k :: 0 <= k < |uris| && uris[k] == target && cards[k] == c
    ensures target !in uris ==> r == []
  {
    if uris == [] then []
    else
      var rest := MatchingCards(uris[1..], cards[1..], target);
      assert forall c :: c in rest ==> exists k :: 0 <= k < |uris| && uris[k] == target && cards[k] == c by {
        forall c | c in rest ensures exists k :: 0 <= k < |uris| && uris[k] == target && cards[k] == c {
          var k :| 0 <= k < |uris| - 1 && uris[1..][k] == target && cards[1..][k] == c;
          assert uris[k + 1] == target && cards[k + 1] == c;
        }
      }
      if uris[0] == target then [cards[0]] + rest else rest
  }

  /** When exactly one card has the URI, the lookup gives exactly that card. */
  lemma {:induction false} UniqueMatch(uris: seq<string>, cards: seq<Json>, target: string, k: nat)
    requires |uris| == |cards| && k < |uris| && uris[k] == target
    requires forall j :: 0 <= j < |uris| && j != k ==> uris[j] != target
    ensures MatchingCards(uris, cards, target) == [cards[k]]
  {
    if k == 0 {
      assert target !in uris[1..];
    } else {
      UniqueMatch(uris[1..], cards[1..], target, k - 1);
    }
  }

  /** A single row contributes its card exactly when its URI matches. */
  lemma MatchingOne(u: string, c: Json, target: string)
    ensures MatchingCards([u], [c], target) == if u == target then [c] else []
  {
    assert [u][1..] == [] && [c][1..] == [];
  }

  /** The lookup over two stretches of the table is the lookup over the first
      followed by the lookup over the second: every matching row is returned,
      once, in table order. */
  lemma {:induction false} MatchingAppend(u1: seq<string>, c1: seq<Json>, u2: seq<string>, c2: seq<Json>, target: string)
    requires |u1| == |c1| && |u2| == |c2|
    ensures MatchingCards(u1 + u2, c1 + c2, target)
         == MatchingCards(u1, c1, target) + MatchingCards(u2, c2, target)
    decreases |u1|
  {
    if u1 == [] {
      assert u1 + u2 == u2 && c1 + c2 == c2;
    } else {
      assert (u1 + u2)[1..] == u1[1..] + u2;
      assert (c1 + c2)[1..] == c1[1..] + c2;
      assert (u1 + u2)[0] == u1[0] && (c1 + c2)[0] == c1[0];
      MatchingAppend(u1[1..], c1[1..], u2, c2, target);
    }
  }

  /** `get_agent_card(name)`: the cards whose URI is the card prefix followed
      by `name`, under `agent_card`. */
  function GetAgentCard(catalog: Option<Catalog>, name: string): (r: Result<Json, ResourceError>)
    requires catalog.Some? ==> |catalog.value.uris| == |catalog.value.cards|
    ensures r.Success? <==> catalog.Some?
    ensures r.Success? ==>
      Field(r.value, "agent_card") == Some(JArray(MatchingCards(catalog.value.uris, catalog.value.cards, CardUriPrefix + name)))
  {
    match catalog
    case None => Failure(NoCatalog)
    case Some(c) => Success(JObject([("agent_card", JArray(MatchingCards(c.uris, c.cards, CardUriPrefix + name)))]))
  }

  lemma SharedStemUris()
    ensures CardUri("travel.json") == "resource://agent_cards/travel"
    ensures CardUri("travel.JSON") == "resource://agent_cards/travel"
    ensures IsJsonName("travel.json") && IsJsonName("travel.JSON")
  {
    assert Lower("travel.json")[6..] == ".json";
    assert Lower("travel.JSON")[6..] == ".json";
    JsonStem("travel.json");
    JsonStem("travel.JSON");
  }

  /** Two files whose names differ only in the case of `.json` get the same
      URI, so the lookup returns both cards. */
  lemma SharedStemExample(c1: Json, c2: Json)
    ensures Loaded([DirEntry("travel.json", true, Some(c1)), DirEntry("travel.JSON", true, Some(c2))])
         == [LoadedCard("resource://agent_cards/travel", c1), LoadedCard("resource://agent_cards/travel", c2)]
    ensures MatchingCards(["resource://agent_cards/travel", "resource://agent_cards/travel"], [c1, c2],
                          CardUriPrefix + "travel") == [c1, c2]
  {
    var e1, e2 := DirEntry("travel.json", true, Some(c1)), DirEntry("travel.JSON", true, Some(c2));
    var uri := "resource://agent_cards/travel";
    SharedStemUris();
    LoadedSplit([e1], e2, []);
    LoadedSplit([], e1, []);
    assert [e1] + [e2] + [] == [e1, e2];
    assert [] + [e1] + [] == [e1];
  }

  /** The bare name `.json` has no suffix, so its URI keeps the dot. */
  lemma HiddenJsonExample(c: Json)
    ensures Loaded([DirEntry(".json", true, Some(c))]) == [LoadedCard("resource://agent_cards/.json", c)]
  {
    var e := DirEntry(".json", true, Some(c));
    assert Lower(".json")[0..] == ".json";
    JsonStem(".json");
    assert CardUri(e.name) == "resource://agent_cards/.json";
    assert [e][..0] == [];
  }

  // ---------------------------------------------------------------------------
  // query_places_data

  function Place(id: string, name: string, address: string): Json {
    JObject([("id", JString(id)), ("displayName", JObject([("text", JString(name))])),
             ("formattedAddress", JString(address))])
  }

  /** `query_places_data`: the same two mocked places whatever the query. */
  function QueryPlacesData(query: string): (r: Json)
    ensures r.JObject? && |r.fields| == 1
    ensures Field(r, "places") == Some(JArray([
      Place("place_1", "Mock Coffee Shop", "123 Mock St"),
      Place("place_2", "Mock Bookstore", "456 Fiction Ave")]))
  {
    JObject([("places", JArray([
      Place("place_1", "Mock Coffee Shop", "123 Mock St"),
      Place("place_2", "Mock Bookstore", "456 Fiction Ave")]))])
  }
}
