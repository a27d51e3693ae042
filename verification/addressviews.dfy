/**
  What the two address views show: the address panel filled by
  `displayAddressInfo` (reply from the reverse geocoder plus the IP lookup)
  and the popup of a clicked point filled by `getClickedLocationInfo`.
  The HTML around the values is left out; a panel is its flag and its list
  of labelled rows, in page order.
 */
module AddressViews {
  import opened JsText
  import opened Addresses
  import opened PlaceTypes
  import opened Flags

  datatype Row = Row(caption: string, value: string)

  datatype AddressPanel =
    | Unavailable        // "No se pudo obtener información de dirección"
    | Panel(flag: string, rows: seq<Row>)

  const AddressLabel: string := "Dirección:"
  const NeighbourhoodLabel: string := "Barrio/Colonia:"
  const CountyLabel: string := "Condado/Municipio:"
  const StateLabel: string := "Estado/Provincia:"
  const PostcodeLabel: string := "Código Postal:"
  const PlaceTypeLabel: string := "Tipo de Lugar:"

  /** `${value ? `...row...` : ''}`: a row only for a non-empty value. */
  function OptionalRow(caption: string, value: string): (rows: seq<Row>)
    ensures value != "" ==> rows == [Row(caption, value)]
    ensures value == "" ==> rows == []
  {
    if value != "" then [Row(caption, value)] else []
  }

  /** The rows bearing `caption`, in order. */
  function Captioned(rows: seq<Row>, caption: string): (sel: seq<Row>)
    ensures forall row | row in sel :: row in rows && row.caption == caption
  {
    if |rows| == 0 then []
    else (if rows[0].caption == caption then [rows[0]] else []) + Captioned(rows[1..], caption)
  }

  lemma {:induction false} CaptionedAppend(a: seq<Row>, b: seq<Row>, caption: string)
    ensures Captioned(a + b, caption) == Captioned(a, caption) + Captioned(b, caption)
    decreases |a|
  {
    if |a| == 0 {
      assert a + b == b;
    } else {
      assert (a + b)[1..] == a[1..] + b;
      CaptionedAppend(a[1..], b, caption);
    }
  }

  /** 1 for a value that gets a row, 0 otherwise. */
  function Present(value: string): nat
  {
    if value != "" then 1 else 0
  }

  /** The rows of the panel for an address line, a set of fields and a place-type label, in page order. */
  function PanelRows(line: string, f: Fields, place: string): (rows: seq<Row>)
    ensures |rows| == 2 + Present(f.neighbourhood) + Present(f.county) + Present(f.state) + Present(f.postcode)
    ensures rows[0] == Row(AddressLabel, line)
    ensures rows[|rows| - 1] == Row(PlaceTypeLabel, place)
  {
    [Row(AddressLabel, line)]
    + OptionalRow(NeighbourhoodLabel, f.neighbourhood)
    + OptionalRow(CountyLabel, f.county)
    + OptionalRow(StateLabel, f.state)
    + OptionalRow(PostcodeLabel, f.postcode)
    + [Row(PlaceTypeLabel, place)]
  }

  /** The rows with one caption of an optional row: that row when it is shown, none otherwise. */
  lemma CaptionedOptionalRow(caption: string, value: string, other: string)
    ensures Captioned(OptionalRow(caption, value), other)
            == if caption == other then OptionalRow(caption, value) else []
  {
    if value != "" {
      assert [Row(caption, value)][1..] == [];
    }
  }

  lemma CaptionedSingleRow(row: Row, other: string)
    requires row.caption != other
    ensures Captioned([row], other) == []
  {
    assert [row][1..] == [];
  }

  /** Selecting by caption distributes over the six parts of the panel. */
  lemma PanelRowsCaptioned(line: string, f: Fields, place: string, caption: string)
    ensures Captioned(PanelRows(line, f, place), caption)
            == Captioned([Row(AddressLabel, line)], caption)
               + Captioned(OptionalRow(NeighbourhoodLabel, f.neighbourhood), caption)
               + Captioned(OptionalRow(CountyLabel, f.county), caption)
               + Captioned(OptionalRow(StateLabel, f.state), caption)
               + Captioned(OptionalRow(PostcodeLabel, f.postcode), caption)
               + Captioned([Row(PlaceTypeLabel, place)], caption)
  {
    var head := [Row(AddressLabel, line)];
    var n := OptionalRow(NeighbourhoodLabel, f.neighbourhood);
    var c := OptionalRow(CountyLabel, f.county);
    var st := OptionalRow(StateLabel, f.state);
    var p := OptionalRow(PostcodeLabel, f.postcode);
    var tail := [Row(PlaceTypeLabel, place)];
    CaptionedAppend(head + n + c + st + p, tail, caption);
    CaptionedAppend(head + n + c + st, p, caption);
    CaptionedAppend(head + n + c, st, caption);
    CaptionedAppend(head + n, c, caption);
    CaptionedAppend(head, n, caption);
  }

  /** The six captions of the panel are pairwise different. */
  lemma CaptionsDistinct()
    ensures AddressLabel != NeighbourhoodLabel && AddressLabel != CountyLabel && AddressLabel != StateLabel
    ensures AddressLabel != PostcodeLabel && AddressLabel != PlaceTypeLabel
    ensures NeighbourhoodLabel != CountyLabel && NeighbourhoodLabel != StateLabel
    ensures NeighbourhoodLabel != PostcodeLabel && NeighbourhoodLabel != PlaceTypeLabel
    ensures CountyLabel != StateLabel && CountyLabel != PostcodeLabel && CountyLabel != PlaceTypeLabel
    ensures StateLabel != PostcodeLabel && StateLabel != PlaceTypeLabel
    ensures PostcodeLabel != PlaceTypeLabel
  {
    assert CountyLabel[1] != PostcodeLabel[1];
  }

  /** The rows bearing one optional caption: its own row when shown, and nothing from the other parts. */
  lemma {:induction false} PanelRowsCaptionedBy(line: string, f: Fields, place: string, caption: string, value: string)
    requires caption == NeighbourhoodLabel || caption == CountyLabel || caption == StateLabel || caption == PostcodeLabel
    requires caption == NeighbourhoodLabel ==> value == f.neighbourhood
    requires caption == CountyLabel ==> value == f.county
    requires caption == StateLabel ==> value == f.state
    requires caption == PostcodeLabel ==> value == f.postcode
    ensures Captioned(PanelRows(line, f, place), caption) == OptionalRow(caption, value)
  {
    CaptionsDistinct();
    PanelRowsCaptioned(line, f, place, caption);
    CaptionedSingleRow(Row(AddressLabel, line), caption);
    CaptionedSingleRow(Row(PlaceTypeLabel, place), caption);
    CaptionedOptionalRow(NeighbourhoodLabel, f.neighbourhood, caption);
    CaptionedOptionalRow(CountyLabel, f.county, caption);
    CaptionedOptionalRow(StateLabel, f.state, caption);
    CaptionedOptionalRow(PostcodeLabel, f.postcode, caption);
  }

  /**
    Each optional row appears exactly when its field is non-empty: the rows
    bearing its caption are that one row (showing the field) or none.
   */
  lemma PanelRowsShowPresentFields(line: string, f: Fields, place: string)
    ensures Captioned(PanelRows(line, f, place), NeighbourhoodLabel) == OptionalRow(NeighbourhoodLabel, f.neighbourhood)
    ensures Captioned(PanelRows(line, f, place), CountyLabel) == OptionalRow(CountyLabel, f.county)
    ensures Captioned(PanelRows(line, f, place), StateLabel) == OptionalRow(StateLabel, f.state)
    ensures Captioned(PanelRows(line, f, place), PostcodeLabel) == OptionalRow(PostcodeLabel, f.postcode)
  {
    PanelRowsCaptionedBy(line, f, place, NeighbourhoodLabel, f.neighbourhood);
    PanelRowsCaptionedBy(line, f, place, CountyLabel, f.county);
    PanelRowsCaptionedBy(line, f, place, StateLabel, f.state);
    PanelRowsCaptionedBy(line, f, place, PostcodeLabel, f.postcode);
  }

  /**
    `displayAddressInfo(addressData, countryData)`: nothing but an error
    without a reply; otherwise the flag of the country code, the one-line
    address first, a row for each non-empty neighbourhood, county, state and
    postcode, and the place type last.
   */
  function DisplayAddressInfo(reply: Option<Reply>, ip: Option<IpInfo>): (r: AddressPanel)
    ensures r.Unavailable? <==> reply.None?
    ensures r.Panel? ==>
              var f := PanelFields(AddressOf(reply.value), ip);
              && r.flag == Flag(f.countryCode)
              && |r.rows| == 2 + Present(f.neighbourhood) + Present(f.county) + Present(f.state) + Present(f.postcode)
              && r.rows[0] == Row(AddressLabel, AddressLine(f))
              && r.rows[|r.rows| - 1] == Row(PlaceTypeLabel, Label(PlaceTypeOf(reply.value)))
              && Captioned(r.rows, NeighbourhoodLabel) == OptionalRow(NeighbourhoodLabel, f.neighbourhood)
              && Captioned(r.rows, CountyLabel) == OptionalRow(CountyLabel, f.county)
              && Captioned(r.rows, StateLabel) == OptionalRow(StateLabel, f.state)
              && Captioned(r.rows, PostcodeLabel) == OptionalRow(PostcodeLabel, f.postcode)
  {
    match reply
    case None => Unavailable
    case Some(data) =>
      var f := PanelFields(AddressOf(data), ip);
      PanelRowsShowPresentFields(AddressLine(f), f, Label(PlaceTypeOf(data)));
      Panel(Flag(f.countryCode), PanelRows(AddressLine(f), f, Label(PlaceTypeOf(data))))
  }

  /** The clicked-point popup: the address and place type, or only the coordinates when the lookup failed. */
  datatype Popup = CoordinatesOnly | Described(address: string, placeType: string)

  /**
    `getClickedLocationInfo`: on a reply, the same one-line address the
    panel would show without IP data, and the same place type; on a failed
    lookup, only the coordinates. (The flag it computes is never shown.)
   */
  function ClickedLocationInfo(reply: Option<Reply>): (r: Popup)
    ensures r.CoordinatesOnly? <==> reply.None?
    ensures r.Described? ==>
              && r.address == AddressLine(PanelFields(AddressOf(reply.value), None))
              && r.placeType == Label(PlaceTypeOf(reply.value))
  {
    match reply
    case None => CoordinatesOnly
    case Some(data) =>
      PopupAgreesWithPanel(AddressOf(data));
      Described(AddressLine(PopupFields(AddressOf(data))), Label(PlaceTypeOf(data)))
  }

  /**
    When the reply names its own country, the popup and the panel show the
    same address line whatever the IP lookup returned.
   */
  lemma PopupMatchesPanel(data: Reply, ip: Option<IpInfo>)
    requires Truthy(AddressOf(data).country)
    ensures DisplayAddressInfo(Some(data), ip).Panel?
    ensures ClickedLocationInfo(Some(data)).address == DisplayAddressInfo(Some(data), ip).rows[0].value
  {
    var a := AddressOf(data);
    IpFallbackOnlyWhenMissing(a, ip);
    IpFallbackOnlyWhenMissing(a, None);
    assert PanelFields(a, ip).country == PanelFields(a, None).country;
  }
}
