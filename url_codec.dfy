/** The view state carried in the page's query string: how `getUrlParams`
    and `parseLocationParam` read it and how `updateUrlWithMapState` writes it.

    A query string is modelled after URL decoding, as the ordered list of its
    (key, value) pairs. JavaScript's `Number` on a coordinate field and
    `toFixed(6)` on a coordinate are parameters (`num`, `fmt`): their exact
    floating-point behaviour is not part of the model. */
module UrlCodec {
  import opened Optional
  import opened Strings
  import opened Numbers

  /** A map centre, `[lat, lng]`. */
  datatype Coord = Coord(lat: real, lng: real)

  /** The built-in centre of each panel slot. */
  const Prague := Coord(50.0755, 14.4378)
  const SaintPetersburg := Coord(59.9343, 30.3351)
  const Barcelona := Coord(41.3851, 2.1734)

  /** The zoom used when the query gives none (or a falsy one). */
  const DefaultZoom := 12
  /** The panel count used when the query gives none (or a falsy one). */
  const DefaultMaps := 2

  type Query = seq<(string, string)>

  /** What `getUrlParams` returns. */
  datatype UrlParams = UrlParams(zoom: int, maps: int, center1: Coord, center2: Coord, center3: Coord)

  /** What `updateUrlWithMapState` reads from the page: map1's zoom, the mode
      and the three panels' centres. */
  datatype ViewState = ViewState(zoom: int, threeMaps: bool, center1: Coord, center2: Coord, center3: Coord)

  /** `URLSearchParams.get`: the value of the first pair with that key, or
      `null` when there is none. */
  function Get(q: Query, key: string): (r: Option<string>)
    ensures r.Some? ==> (key, r.value) in q
  {
    if |q| == 0 then None
    else if q[0].0 == key then Some(q[0].1)
    else Get(q[1..], key)
  }

  /** `parseInt(x) || d`: `NaN` and `0` are both falsy and give `d`. */
  function IntOr(v: Option<int>, d: int): (r: int)
    ensures (v.None? || v == Some(0)) ==> r == d
    ensures v.Some? && v.value != 0 ==> r == v.value
  {
    match v
    case None => d
    case Some(x) => if x == 0 then d else x
  }

  /** `parseLocationParam(param, d)`: an absent or empty parameter gives `d`;
      otherwise `Number` is applied to the comma-separated fields and the first
      two are the centre, unless either of them is `NaN` (a missing second
      field is `undefined`, which `isNaN` also accepts), in which case it
      gives `d`. */
  function ParseLocationParam(param: Option<string>, d: Coord, num: string -> Option<real>): (c: Coord)
    ensures param.None? || param == Some("") ==> c == d
    ensures c != d ==>
              && param.Some?
              && var fields := Split(param.value, ',');
                 |fields| >= 2 && num(fields[0]) == Some(c.lat) && num(fields[1]) == Some(c.lng)
  {
    if param.None? || param.value == "" then d
    else
      var fields := Split(param.value, ',');
      var lat := num(fields[0]);
      var lng := if |fields| >= 2 then num(fields[1]) else None;
      if lat.None? || lng.None? then d else Coord(lat.value, lng.value)
  }

  /** `getUrlParams`: never fails; every entry has its fallback. */
  function GetUrlParams(q: Query, num: string -> Option<real>): (p: UrlParams)
    ensures p.zoom != 0 && p.maps != 0
  {
    UrlParams(
      IntOr(OptionParseInt(Get(q, "zoom")), DefaultZoom),
      IntOr(OptionParseInt(Get(q, "maps")), DefaultMaps),
      ParseLocationParam(Get(q, "center1"), Prague, num),
      ParseLocationParam(Get(q, "center2"), SaintPetersburg, num),
      ParseLocationParam(Get(q, "center3"), Barcelona, num))
  }

  /** The fallbacks of `getUrlParams`: a missing, non-numeric or zero zoom
      is 12 and any other parsed zoom is kept unclamped; the mode is three
      maps exactly when `maps` parses to 3; a missing centre is its slot's
      default. */
  lemma GetUrlParamsFallbacks(q: Query, num: string -> Option<real>)
    ensures var p := GetUrlParams(q, num); var z := OptionParseInt(Get(q, "zoom"));
      && (z.None? || z == Some(0) ==> p.zoom == DefaultZoom)
      && (z.Some? && z.value != 0 ==> p.zoom == z.value)
      && (IsThreeMaps(p) <==> OptionParseInt(Get(q, "maps")) == Some(3))
      && (Get(q, "center1").None? ==> p.center1 == Prague)
      && (Get(q, "center2").None? ==> p.center2 == SaintPetersburg)
      && (Get(q, "center3").None? ==> p.center3 == Barcelona)
  {
  }

  /** `parseInt(null)` is `NaN`. */
  function OptionParseInt(v: Option<string>): (r: Option<int>)
    ensures v.None? ==> r.None?
    ensures v.Some? ==> r == ParseInt(v.value)
  {
    match v
    case None => None
    case Some(s) => ParseInt(s)
  }

  /** `parseInt(null)` converts `null` to the string `"null"`, which holds no
      digit: a missing parameter reads as `NaN`, just as that string does. */
  lemma OptionParseIntNull()
    ensures OptionParseInt(None) == ParseInt("null")
  {
    NullText();
    ParseMagnitudeStart("null");
  }

  lemma NullText()
    ensures TrimStart("null") == "null" && !IsDigit("null"[0], 10)
  {
  }

  /** The page is in three-map mode exactly when `maps` parsed to 3. */
  predicate IsThreeMaps(p: UrlParams)
  {
    p.maps == 3
  }

  /** The view the page starts from, given its parsed parameters. */
  function ViewOf(p: UrlParams): ViewState
  {
    ViewState(p.zoom, IsThreeMaps(p), p.center1, p.center2, p.center3)
  }

  /** One centre as written into the URL: `lat,lng`, each formatted by `fmt`. */
  function FormatCoord(c: Coord, fmt: real -> string): string
  {
    fmt(c.lat) + [','] + fmt(c.lng)
  }

  /** When neither formatted number contains a comma, the written centre
      splits back into exactly its two fields. */
  lemma FormatCoordFields(c: Coord, fmt: real -> string)
    requires ',' !in fmt(c.lat) && ',' !in fmt(c.lng)
    ensures Split(FormatCoord(c, fmt), ',') == [fmt(c.lat), fmt(c.lng)]
  {
    SplitField(fmt(c.lat), fmt(c.lng), ',');
    SplitNone(fmt(c.lng), ',');
  }

  function Keys(q: Query): (ks: seq<string>)
    ensures |ks| == |q| && forall i :: 0 <= i < |q| ==> ks[i] == q[i].0
  {
    seq(|q|, i requires 0 <= i < |q| => q[i].0)
  }

  /** The parameters `updateUrlWithMapState` sets, in order: `center3` only
      in three-map mode. */
  function Serialize(v: ViewState, fmt: real -> string): (q: Query)
    ensures Keys(q) == ["zoom", "maps", "center1", "center2"] + (if v.threeMaps then ["center3"] else [])
  {
    Written(IntToString(v.zoom), if v.threeMaps then "3" else "2",
            FormatCoord(v.center1, fmt), FormatCoord(v.center2, fmt),
            if v.threeMaps then Some(FormatCoord(v.center3, fmt)) else None)
  }

  /** A query with the written keys in the written order. */
  function Written(zoom: string, maps: string, c1: string, c2: string, c3: Option<string>): Query
  {
    [("zoom", zoom), ("maps", maps), ("center1", c1), ("center2", c2)] +
    (if c3.Some? then [("center3", c3.value)] else [])
  }

  /** What each key of a written query holds: `zoom` is the zoom as a decimal
      numeral, `maps` is 3 or 2 by mode, and each centre is `lat,lng`; there is
      no `center3` in two-map mode. */
  lemma SerializedValues(v: ViewState, fmt: real -> string)
    ensures var q := Serialize(v, fmt);
      && Get(q, "zoom") == Some(IntToString(v.zoom))
      && Get(q, "maps") == Some(if v.threeMaps then "3" else "2")
      && Get(q, "center1") == Some(FormatCoord(v.center1, fmt))
      && Get(q, "center2") == Some(FormatCoord(v.center2, fmt))
      && Get(q, "center3") == if v.threeMaps then Some(FormatCoord(v.center3, fmt)) else None
  {
    WrittenValues(IntToString(v.zoom), if v.threeMaps then "3" else "2",
                  FormatCoord(v.center1, fmt), FormatCoord(v.center2, fmt),
                  if v.threeMaps then Some(FormatCoord(v.center3, fmt)) else None);
  }

  /** Reading each key back from a written query gives the value written for
      it, and `null` for an omitted `center3`. */
  lemma WrittenValues(zoom: string, maps: string, c1: string, c2: string, c3: Option<string>)
    ensures var q := Written(zoom, maps, c1, c2, c3);
      && Get(q, "zoom") == Some(zoom) && Get(q, "maps") == Some(maps)
      && Get(q, "center1") == Some(c1) && Get(q, "center2") == Some(c2)
      && Get(q, "center3") == c3
  {
    var q := Written(zoom, maps, c1, c2, c3);
    assert "zoom"[0] == 'z' && "maps"[0] == 'm' && "center1"[0] == 'c';
    assert "center1"[6] == '1' && "center2"[6] == '2' && "center3"[6] == '3';
    GetFirst(q, "zoom", 0);
    GetFirst(q, "maps", 1);
    GetFirst(q, "center1", 2);
    GetFirst(q, "center2", 3);
    if c3.Some? {
      GetFirst(q, "center3", 4);
    } else {
      GetAbsent(q, "center3");
    }
  }

  /** A serialised three-map view is read back in three-map mode, and a
      two-map one in two-map mode. */
  lemma SerializedMode(v: ViewState, fmt: real -> string, num: string -> Option<real>)
    ensures IsThreeMaps(GetUrlParams(Serialize(v, fmt), num)) == v.threeMaps
  {
    var q := Serialize(v, fmt);
    SerializedValues(v, fmt);
    GetUrlParamsFallbacks(q, num);
    ModeNumerals();
  }

  /** `Get` finds the first pair with the key. */
  lemma {:induction false} GetFirst(q: Query, key: string, i: nat)
    requires i < |q| && q[i].0 == key
    requires forall j :: 0 <= j < i ==> q[j].0 != key
    ensures Get(q, key) == Some(q[i].1)
  {
    if i > 0 {
      GetFirst(q[1..], key, i - 1);
    }
  }

  /** `Get` of a key no pair has is `null`. */
  lemma {:induction false} GetAbsent(q: Query, key: string)
    requires forall j :: 0 <= j < |q| ==> q[j].0 != key
    ensures Get(q, key) == None
  {
    if |q| > 0 {
      GetAbsent(q[1..], key);
    }
  }

  /** A centre parameter is read from its first two comma-separated fields
      alone: whatever follows a second comma is ignored, and the slot's
      default replaces the centre when either field is not a number. */
  lemma {:induction false} ParseLocationFields(a: string, b: string, tail: string, d: Coord, num: string -> Option<real>)
    requires ',' !in a && ',' !in b
    requires tail == [] || tail[0] == ','
    ensures ParseLocationParam(Some(a + [','] + b + tail), d, num) ==
            if num(a).Some? && num(b).Some? then Coord(num(a).value, num(b).value) else d
  {
    var s := a + [','] + b + tail;
    assert s == a + [','] + (b + tail);
    SplitField(a, b + tail, ',');
    if tail == [] {
      assert b + tail == b;
      SplitNone(b, ',');
    } else {
      assert b + tail == b + [','] + tail[1..];
      SplitField(b, tail[1..], ',');
    }
  }

  /** A centre parameter without a comma has no second field, so it always
      falls back to the slot's default. */
  lemma ParseLocationSingleField(a: string, d: Coord, num: string -> Option<real>)
    requires ',' !in a
    ensures ParseLocationParam(Some(a), d, num) == d
  {
    if a != "" {
      SplitNone(a, ',');
    }
  }

  /** `?zoom=99&maps=5&center1=bad`: zoom 99 is kept as it is (there is no
      clamping), 5 panels means two-map mode, and `center1` falls back to
      Prague because `bad` has no comma and so no second field. */
  lemma ExampleQuery(num: string -> Option<real>)
    ensures var p := GetUrlParams([("zoom", "99"), ("maps", "5"), ("center1", "bad")], num);
      && p.zoom == 99 && !IsThreeMaps(p)
      && p.center1 == Prague && p.center2 == SaintPetersburg && p.center3 == Barcelona
  {
    var q: Query := [("zoom", "99"), ("maps", "5"), ("center1", "bad")];
    assert "center1"[6] == '1' && "center2"[6] == '2' && "center3"[6] == '3';
    assert "zoom"[0] == 'z' && "maps"[0] == 'm' && "center1"[0] == 'c';
    GetFirst(q, "zoom", 0);
    GetFirst(q, "maps", 1);
    GetFirst(q, "center1", 2);
    GetAbsent(q, "center2");
    GetAbsent(q, "center3");
    ParseIntExamples();
    NoCommaInBad();
    ParseLocationSingleField("bad", Prague, num);
    GetUrlParamsFallbacks(q, num);
  }

  /** The numerals of the example read back as their numbers. */
  lemma ParseIntExamples()
    ensures ParseInt("99") == Some(99) && ParseInt("5") == Some(5)
  {
    Numerals();
    ParseIntRoundTrip(99);
    ParseIntRoundTrip(5);
  }

  lemma Numerals()
    ensures IntToString(99) == "99" && IntToString(5) == "5"
  {
    assert NatToString(9) == "9";
  }

  /** The two values written for `maps` read back as 3 and 2. */
  lemma ModeNumerals()
    ensures ParseInt("3") == Some(3) && ParseInt("2") == Some(2)
  {
    ModeStrings();
    ParseIntRoundTrip(3);
    ParseIntRoundTrip(2);
  }

  lemma ModeStrings()
    ensures IntToString(3) == "3" && IntToString(2) == "2"
  {
  }

  lemma NoCommaInBad()
    ensures ',' !in "bad"
  {
  }

  /** `fmt` then `num` rounds a coordinate by `round`, and `fmt` writes no comma. */
  ghost predicate NumberFormat(fmt: real -> string, num: string -> Option<real>, round: real -> real)
  {
    forall x :: ',' !in fmt(x) && num(fmt(x)) == Some(round(x))
  }

  function Rounded(c: Coord, round: real -> real): Coord
  {
    Coord(round(c.lat), round(c.lng))
  }

  /** Reading back a written query restores the view: the same mode, the same
      zoom except that zoom 0 comes back as the default 12, each written centre
      as `fmt`/`num` round it, and in two-map mode the omitted `center3` as
      the Barcelona default. */
  lemma {:induction false} RoundTrip(v: ViewState, fmt: real -> string, num: string -> Option<real>, round: real -> real)
    requires NumberFormat(fmt, num, round)
    ensures ViewOf(GetUrlParams(Serialize(v, fmt), num)) ==
            ViewState(if v.zoom == 0 then DefaultZoom else v.zoom, v.threeMaps,
                      Rounded(v.center1, round), Rounded(v.center2, round),
                      if v.threeMaps then Rounded(v.center3, round) else Barcelona)
  {
    var q := Serialize(v, fmt);
    SerializedValues(v, fmt);
    ParseIntRoundTrip(v.zoom);
    ModeNumerals();
    CentreRoundTrip(v.center1, Prague, fmt, num, round);
    CentreRoundTrip(v.center2, SaintPetersburg, fmt, num, round);
    CentreRoundTrip(v.center3, Barcelona, fmt, num, round);
  }

  lemma CentreRoundTrip(c: Coord, d: Coord, fmt: real -> string, num: string -> Option<real>, round: real -> real)
    requires NumberFormat(fmt, num, round)
    ensures ParseLocationParam(Some(FormatCoord(c, fmt)), d, num) == Rounded(c, round)
  {
    var a, b := fmt(c.lat), fmt(c.lng);
    ParseLocationFields(a, b, "", d, num);
    assert FormatCoord(c, fmt) == a + [','] + b + "";
  }
}
