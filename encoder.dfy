/**
  The feature encoder: the user's form choices become the dictionary of
  named values the regressor was trained on, then a row aligned with the
  fixed feature-column schema.
 */
module Encoder {
  import opened Wrappers
  import opened Decimal
  import opened Frames

  const PrivateRoom := "Private room"

  /** The names of the five numeric columns, copied from the form unchanged. */
  const Bathrooms := "bathrooms"
  const Superhost := "host_is_superhost"
  const MinimumNights := "minimum_nights"
  const NumberOfReviews := "number_of_reviews"
  const ReviewScoresRating := "review_scores_rating"

  const NumericColumns: set<string> :=
    {Bathrooms, Superhost, MinimumNights, NumberOfReviews, ReviewScoresRating}

  /** One-hot column names: the training field's name, an underscore, the chosen value. */
  function NeighbourhoodColumn(neighbourhood: string): string
  {
    "neighbourhood_cleansed_" + neighbourhood
  }

  function AccommodatesColumn(accommodates: nat): string
  {
    "accommodates_" + NatToString(accommodates)
  }

  function RoomTypeColumn(roomType: string): string
  {
    "room_type_" + roomType
  }

  /** What the user chose in the sidebar. */
  datatype Selection = Selection(
    neighbourhood: string,
    accommodates: nat,
    roomType: string,
    bathrooms: real,
    superhost: bool,
    minimumNights: int,
    numberOfReviews: int,
    reviewScoresRating: int)

  /** The option lists and the feature-column schema loaded at start-up. */
  datatype Artifacts = Artifacts(
    featureColumns: seq<string>,
    neighbourhoods: seq<string>,
    accommodatesOptions: seq<nat>,
    roomTypes: seq<string>)

  /** The choices the sidebar widgets can produce: options from the lists, numbers within the widget ranges. */
  predicate FromWidgets(a: Artifacts, s: Selection)
  {
    && s.neighbourhood in a.neighbourhoods
    && s.accommodates in a.accommodatesOptions
    && s.roomType in a.roomTypes
    && 1.0 <= s.bathrooms <= 4.0 && (2.0 * s.bathrooms).Floor as real == 2.0 * s.bathrooms
    && 1 <= s.minimumNights <= 90
    && 0 <= s.numberOfReviews <= 500
    && 60 <= s.reviewScoresRating <= 100
  }

  /**
    The room type preselected in the sidebar: the first "Private room" in the
    option list, or the first option when there is none.
   */
  function DefaultRoomTypeIndex(roomTypes: seq<string>): (r: nat)
    ensures PrivateRoom in roomTypes ==> r < |roomTypes| && roomTypes[r] == PrivateRoom
    ensures PrivateRoom in roomTypes ==> forall j :: 0 <= j < r ==> roomTypes[j] != PrivateRoom
    ensures PrivateRoom !in roomTypes ==> r == 0
    ensures |roomTypes| > 0 ==> r < |roomTypes|
  {
    match FirstIndex(roomTypes, PrivateRoom)
    case Some(i) => i
    case None => 0
  }

  /** The dictionary literal built from the selection; a later key would win over an earlier one. */
  function UserInput(s: Selection): map<string, real>
  {
    map[]
      [Bathrooms := s.bathrooms]
      [Superhost := if s.superhost then 1.0 else 0.0]
      [MinimumNights := s.minimumNights as real]
      [NumberOfReviews := s.numberOfReviews as real]
      [ReviewScoresRating := s.reviewScoresRating as real]
      [NeighbourhoodColumn(s.neighbourhood) := 1.0]
      [AccommodatesColumn(s.accommodates) := 1.0]
      [RoomTypeColumn(s.roomType) := 1.0]
  }

  /** The three one-hot columns the selection switches on. */
  function OneHotColumns(s: Selection): set<string>
  {
    {NeighbourhoodColumn(s.neighbourhood), AccommodatesColumn(s.accommodates), RoomTypeColumn(s.roomType)}
  }

  /**
    What the encoded row must hold under the column `name`: the form's value
    for a numeric column, 1 for a column the selection switches on, 0 for
    every other column.
   */
  function ColumnValue(s: Selection, name: string): real
  {
    if name == Bathrooms then s.bathrooms
    else if name == Superhost then (if s.superhost then 1.0 else 0.0)
    else if name == MinimumNights then s.minimumNights as real
    else if name == NumberOfReviews then s.numberOfReviews as real
    else if name == ReviewScoresRating then s.reviewScoresRating as real
    else if name in OneHotColumns(s) then 1.0
    else 0.0
  }

  /** Two names differ when they differ at one position. */
  lemma DifferAt(s: string, t: string, k: nat)
    requires k < |s| && k < |t| && s[k] != t[k]
    ensures s != t
  {
  }

  /** No one-hot name is a numeric column name and the three one-hot families never share a name. */
  lemma ColumnNamesDisjoint(s: Selection)
    ensures NeighbourhoodColumn(s.neighbourhood) !in NumericColumns
    ensures AccommodatesColumn(s.accommodates) !in NumericColumns
    ensures RoomTypeColumn(s.roomType) !in NumericColumns
    ensures NeighbourhoodColumn(s.neighbourhood) != AccommodatesColumn(s.accommodates)
    ensures NeighbourhoodColumn(s.neighbourhood) != RoomTypeColumn(s.roomType)
    ensures AccommodatesColumn(s.accommodates) != RoomTypeColumn(s.roomType)
  {
    var n, a, r := NeighbourhoodColumn(s.neighbourhood), AccommodatesColumn(s.accommodates), RoomTypeColumn(s.roomType);
    assert n[0] == 'n' && n[1] == 'e';
    assert a[0] == 'a';
    assert r[0] == 'r' && r[1] == 'o';
    DifferAt(n, Bathrooms, 0); DifferAt(n, Superhost, 0); DifferAt(n, MinimumNights, 0);
    DifferAt(n, NumberOfReviews, 1); DifferAt(n, ReviewScoresRating, 0);
    DifferAt(a, Bathrooms, 0); DifferAt(a, Superhost, 0); DifferAt(a, MinimumNights, 0);
    DifferAt(a, NumberOfReviews, 0); DifferAt(a, ReviewScoresRating, 0);
    DifferAt(r, Bathrooms, 0); DifferAt(r, Superhost, 0); DifferAt(r, MinimumNights, 0);
    DifferAt(r, NumberOfReviews, 0); DifferAt(r, ReviewScoresRating, 1);
    DifferAt(n, a, 0); DifferAt(n, r, 0); DifferAt(a, r, 0);
  }

  /**
    The dictionary holds exactly the five numeric columns and the three
    one-hot columns, each with its own value: no key overwrites another.
   */
  lemma UserInputMatchesColumnValue(s: Selection)
    ensures UserInput(s).Keys == NumericColumns + OneHotColumns(s)
    ensures forall name :: ValueOrZero(UserInput(s), name) == ColumnValue(s, name)
  {
    ColumnNamesDisjoint(s);
  }

  /**
    `input_df`: the dictionary reindexed against the schema. One value per
    schema column, in schema order; each value is the one `ColumnValue`
    prescribes, so the selected one-hot columns hold 1, the other non-numeric
    columns hold 0, and a one-hot name missing from the schema leaves no trace.
   */
  function Encode(s: Selection, schema: seq<string>): (f: Frame)
    ensures f.columns == schema && |f.row| == |schema|
    ensures Distinct(schema) ==> f.Valid()
    ensures forall i :: 0 <= i < |schema| ==> f.row[i] == ColumnValue(s, schema[i])
    ensures forall i :: 0 <= i < |schema| && schema[i] !in NumericColumns ==>
      (f.row[i] == 1.0 <==> schema[i] in OneHotColumns(s)) && (f.row[i] == 0.0 <==> schema[i] !in OneHotColumns(s))
  {
    UserInputMatchesColumnValue(s);
    Frame(schema, Reindex(UserInput(s), schema))
  }

  /** Looking a column up in the encoded row finds the value `ColumnValue` prescribes, if the schema has the column. */
  lemma EncodeGet(s: Selection, schema: seq<string>, name: string)
    requires Distinct(schema)
    ensures Encode(s, schema).Get(name) == if name in schema then Some(ColumnValue(s, name)) else None
  {
  }

  /** A one-hot name the schema lacks changes nothing: the row is the one built without that key. */
  lemma AbsentOneHotContributesNothing(s: Selection, schema: seq<string>, name: string)
    requires name in OneHotColumns(s) && name !in schema
    ensures Encode(s, schema).row == Reindex(UserInput(s) - {name}, schema)
  {
  }
}
