/**
  The feature-impact simulator: four what-if variants of the baseline row,
  each a fresh copy with one column assigned, and the estimate that reports
  the baseline price and each variant's price difference. The regressor is
  the parameter `predict`, about which nothing is assumed.
 */
module Scenarios {
  import opened Wrappers
  import opened Decimal
  import opened Frames
  import opened Encoder

  const Waterfront := "Waterfront Communities-The Island"
  /** "room_type_Private room" */
  const PrivateRoomColumn := RoomTypeColumn(PrivateRoom)
  /** "neighbourhood_cleansed_Waterfront Communities-The Island" */
  const WaterfrontColumn := NeighbourhoodColumn(Waterfront)

  function Max(x: int, y: int): int
  {
    if x >= y then x else y
  }

  /** "Switch to Entire Place": runs only when the private-room flag is a column holding 1, and clears it. */
  function SwitchToEntirePlace(base: Frame): (r: Option<Frame>)
    requires base.Valid()
    ensures r.Some? <==> base.Get(PrivateRoomColumn) == Some(1.0)
    ensures r.Some? ==> r.value.Valid() && r.value.columns == base.columns
    ensures r.Some? ==> forall i :: 0 <= i < |base.row| ==>
      r.value.row[i] == if base.columns[i] == PrivateRoomColumn then 0.0 else base.row[i]
  {
    if base.Get(PrivateRoomColumn) == Some(1.0) then Some(base.Set(PrivateRoomColumn, 0.0)) else None
  }

  /**
    "Add 1 More Guest": runs only when the schema has a column for one more
    guest, and sets that column to 1; the current count's column is left as it is.
   */
  function AddOneGuest(featureColumns: seq<string>, base: Frame, accommodates: nat): (r: Option<Frame>)
    requires base.Valid()
    ensures r.Some? <==> AccommodatesColumn(accommodates + 1) in featureColumns
    ensures r.Some? ==> r.value.Valid() && r.value.Get(AccommodatesColumn(accommodates + 1)) == Some(1.0)
    ensures r.Some? ==> |r.value.row| >= |base.row|
    ensures r.Some? && AccommodatesColumn(accommodates + 1) in base.columns ==> r.value.columns == base.columns
    ensures r.Some? && AccommodatesColumn(accommodates + 1) !in base.columns ==>
      r.value.columns == base.columns + [AccommodatesColumn(accommodates + 1)]
    ensures r.Some? ==> forall i :: 0 <= i < |base.row| ==>
      r.value.row[i] == if base.columns[i] == AccommodatesColumn(accommodates + 1) then 1.0 else base.row[i]
  {
    var column := AccommodatesColumn(accommodates + 1);
    if column in featureColumns then Some(base.Set(column, 1.0)) else None
  }

  /** "Move to Waterfront Island": runs only when the waterfront flag is a column holding 0, and sets it. */
  function MoveToWaterfront(base: Frame): (r: Option<Frame>)
    requires base.Valid()
    ensures r.Some? <==> base.Get(WaterfrontColumn) == Some(0.0)
    ensures r.Some? ==> r.value.Valid() && r.value.columns == base.columns
    ensures r.Some? ==> forall i :: 0 <= i < |base.row| ==>
      r.value.row[i] == if base.columns[i] == WaterfrontColumn then 1.0 else base.row[i]
  {
    if base.Get(WaterfrontColumn) == Some(0.0) then Some(base.Set(WaterfrontColumn, 1.0)) else None
  }

  /**
    "-1 Minimum Night": always runs; the minimum stay drops by one night but
    never below one night, and no other column changes.
   */
  function ReduceMinimumNight(base: Frame, minimumNights: int): (f: Frame)
    requires base.Valid()
    ensures f.Valid()
    ensures f.columns == if MinimumNights in base.columns then base.columns else base.columns + [MinimumNights]
    ensures f.Get(MinimumNights).Some? && f.Get(MinimumNights).value >= 1.0
    ensures minimumNights >= 2 ==> f.Get(MinimumNights) == Some((minimumNights - 1) as real)
    ensures minimumNights <= 1 ==> f.Get(MinimumNights) == Some(1.0)
    ensures forall other :: other != MinimumNights ==> f.Get(other) == base.Get(other)
  {
    base.Set(MinimumNights, Max(minimumNights - 1, 1) as real)
  }

  /** What the page shows: the baseline price and, per scenario that runs, its price minus the baseline price. */
  datatype Report = Report(
    price: real,
    switchToEntirePlace: Option<real>,
    addOneGuest: Option<real>,
    moveToWaterfront: Option<real>,
    reduceMinimumNight: real)

  /** A scenario's reported difference: present exactly when the scenario ran, and then its price minus the baseline's. */
  function DeltaOf(predict: Frame -> real, base: Frame, variant: Option<Frame>): (r: Option<real>)
    ensures r.Some? <==> variant.Some?
    ensures r.Some? ==> r.value == predict(variant.value) - predict(base)
  {
    match variant
    case None => None
    case Some(f) => Some(predict(f) - predict(base))
  }

  /** Two names with the same prefix are equal only when the rest is. */
  lemma PrefixCancels(prefix: string, x: string, y: string)
    requires prefix + x == prefix + y
    ensures x == y
  {
    assert x == (prefix + x)[|prefix|..];
    assert y == (prefix + y)[|prefix|..];
  }

  /** The private-room flag of the baseline is 1 exactly when the user chose "Private room". */
  lemma PrivateRoomColumnValue(s: Selection)
    ensures ColumnValue(s, PrivateRoomColumn) == if s.roomType == PrivateRoom then 1.0 else 0.0
  {
    var c := PrivateRoomColumn;
    DifferAt(c, NeighbourhoodColumn(s.neighbourhood), 0);
    DifferAt(c, AccommodatesColumn(s.accommodates), 0);
    DifferAt(c, Bathrooms, 0); DifferAt(c, Superhost, 0); DifferAt(c, MinimumNights, 0);
    DifferAt(c, NumberOfReviews, 0); DifferAt(c, ReviewScoresRating, 1);
    if RoomTypeColumn(s.roomType) == c {
      PrefixCancels("room_type_", s.roomType, PrivateRoom);
    }
  }

  /** The waterfront flag of the baseline is 1 exactly when the user chose that neighbourhood. */
  lemma WaterfrontColumnValue(s: Selection)
    ensures ColumnValue(s, WaterfrontColumn) == if s.neighbourhood == Waterfront then 1.0 else 0.0
  {
    var c := WaterfrontColumn;
    DifferAt(c, RoomTypeColumn(s.roomType), 0);
    DifferAt(c, AccommodatesColumn(s.accommodates), 0);
    DifferAt(c, Bathrooms, 0); DifferAt(c, Superhost, 0); DifferAt(c, MinimumNights, 0);
    DifferAt(c, NumberOfReviews, 1); DifferAt(c, ReviewScoresRating, 0);
    if NeighbourhoodColumn(s.neighbourhood) == c {
      PrefixCancels("neighbourhood_cleansed_", s.neighbourhood, Waterfront);
    }
  }

  /** The column for one more guest is never the current count's column, nor any other non-accommodates column the selection sets. */
  lemma NextAccommodatesColumnValue(s: Selection)
    ensures ColumnValue(s, AccommodatesColumn(s.accommodates + 1)) == 0.0
  {
    var c := AccommodatesColumn(s.accommodates + 1);
    var n := AccommodatesColumn(s.accommodates);
    ColumnNamesDisjoint(s.(accommodates := s.accommodates + 1));
    DifferAt(c, NeighbourhoodColumn(s.neighbourhood), 0);
    DifferAt(c, RoomTypeColumn(s.roomType), 0);
    if c == n {
      PrefixCancels("accommodates_", NatToString(s.accommodates + 1), NatToString(s.accommodates));
      NatToStringInjective(s.accommodates + 1, s.accommodates);
    }
  }

  /**
    At a one-night minimum the "-1 Minimum Night" row is the baseline row
    itself, so whatever the regressor is, its reported difference is 0.
   */
  lemma ReduceMinimumNightFromOneIsBaseline(schema: seq<string>, s: Selection)
    requires Distinct(schema)
    ensures MinimumNights in schema && s.minimumNights == 1 ==>
      ReduceMinimumNight(Encode(s, schema), s.minimumNights) == Encode(s, schema)
  {
  }

  /**
    The whole estimate for one selection: encode, predict, then derive each
    scenario from the same baseline. A scenario is reported exactly when its
    guard holds, stated here in terms of the user's choices.
   */
  function Estimate(a: Artifacts, predict: Frame -> real, s: Selection): (r: Report)
    requires Distinct(a.featureColumns)
    ensures r.price == predict(Encode(s, a.featureColumns))
    ensures r.switchToEntirePlace.Some? <==> PrivateRoomColumn in a.featureColumns && s.roomType == PrivateRoom
    ensures r.addOneGuest.Some? <==> AccommodatesColumn(s.accommodates + 1) in a.featureColumns
    ensures r.moveToWaterfront.Some? <==> WaterfrontColumn in a.featureColumns && s.neighbourhood != Waterfront
    ensures MinimumNights in a.featureColumns && s.minimumNights == 1 ==> r.reduceMinimumNight == 0.0
    ensures var base := Encode(s, a.featureColumns);
      && (r.switchToEntirePlace.Some? ==>
            r.switchToEntirePlace.value == predict(base.Set(PrivateRoomColumn, 0.0)) - r.price)
      && (r.addOneGuest.Some? ==>
            r.addOneGuest.value == predict(base.Set(AccommodatesColumn(s.accommodates + 1), 1.0)) - r.price)
      && (r.moveToWaterfront.Some? ==>
            r.moveToWaterfront.value == predict(base.Set(WaterfrontColumn, 1.0)) - r.price)
      && r.reduceMinimumNight == predict(base.Set(MinimumNights, Max(s.minimumNights - 1, 1) as real)) - r.price
  {
    var base := Encode(s, a.featureColumns);
    PrivateRoomColumnValue(s);
    EncodeGet(s, a.featureColumns, PrivateRoomColumn);
    WaterfrontColumnValue(s);
    EncodeGet(s, a.featureColumns, WaterfrontColumn);
    var reduced := ReduceMinimumNight(base, s.minimumNights);
    ReduceMinimumNightFromOneIsBaseline(a.featureColumns, s);
    Report(
      predict(base),
      DeltaOf(predict, base, SwitchToEntirePlace(base)),
      DeltaOf(predict, base, AddOneGuest(a.featureColumns, base, s.accommodates)),
      DeltaOf(predict, base, MoveToWaterfront(base)),
      predict(reduced) - predict(base))
  }

  /**
    When it runs, "Add 1 More Guest" changes the baseline in exactly one
    column, from 0 to 1, and the current count's column keeps its 1.
   */
  lemma AddOneGuestChangesOneColumn(a: Artifacts, s: Selection)
    requires Distinct(a.featureColumns)
    requires AccommodatesColumn(s.accommodates + 1) in a.featureColumns
    ensures var base := Encode(s, a.featureColumns);
      var f := AddOneGuest(a.featureColumns, base, s.accommodates).value;
      && f.columns == base.columns
      && (forall i :: 0 <= i < |base.row| && base.columns[i] != AccommodatesColumn(s.accommodates + 1) ==> f.row[i] == base.row[i])
      && (forall i :: 0 <= i < |base.row| && base.columns[i] == AccommodatesColumn(s.accommodates + 1) ==> base.row[i] == 0.0 && f.row[i] == 1.0)
      && (AccommodatesColumn(s.accommodates) in a.featureColumns ==> f.Get(AccommodatesColumn(s.accommodates)) == Some(1.0))
  {
    NextAccommodatesColumnValue(s);
    ColumnNamesDisjoint(s);
  }

  /**
    Under the widget ranges the reduced minimum stay lies between 1 and 89
    nights and never exceeds the user's own minimum stay.
   */
  lemma ReduceMinimumNightWithinWidgetRange(a: Artifacts, s: Selection)
    requires Distinct(a.featureColumns) && FromWidgets(a, s)
    ensures var v := ReduceMinimumNight(Encode(s, a.featureColumns), s.minimumNights).Get(MinimumNights).value;
      1.0 <= v <= 89.0 && v <= s.minimumNights as real
  {
  }

  /**
    The worked example: a private room for two on the waterfront. The three
    chosen one-hot columns hold 1, every other non-numeric column 0; the
    waterfront scenario is skipped and the entire-place scenario is reported.
   */
  lemma WaterfrontPrivateRoomExample(a: Artifacts, predict: Frame -> real)
    requires Distinct(a.featureColumns)
    requires PrivateRoomColumn in a.featureColumns && WaterfrontColumn in a.featureColumns
    requires AccommodatesColumn(2) in a.featureColumns
    ensures var s := Selection(Waterfront, 2, PrivateRoom, 1.0, false, 14, 50, 90);
      var base := Encode(s, a.featureColumns);
      && base.Get(PrivateRoomColumn) == Some(1.0)
      && base.Get(WaterfrontColumn) == Some(1.0)
      && base.Get(AccommodatesColumn(2)) == Some(1.0)
      && (forall i :: (0 <= i < |base.row| && base.columns[i] !in NumericColumns
            && base.columns[i] !in {PrivateRoomColumn, WaterfrontColumn, AccommodatesColumn(2)}) ==> base.row[i] == 0.0)
      && Estimate(a, predict, s).moveToWaterfront == None
      && Estimate(a, predict, s).switchToEntirePlace.Some?
  {
  }
}
