/** The listing screen (`PropertyList`): the rows loaded from the `properties`
    table, a delete that drops every row with the deleted id, and the choice of
    what to show (spinner, error banner or the cards). */
module PropertyList {
  import opened Remote

  const LoadFailedMessage := "Failed to load properties"
  const DeleteFailedAlert := "Failed to delete property"

  /** One card's data. */
  datatype Listing = Listing(
    id: string,
    title: string,
    price: string,
    image: string,
    beds: int,
    baths: int,
    sqft: int,
    location: string)

  /** `properties.filter(property => property.id !== id)`: exactly the rows with
      another id remain, none is added, and there are no more than before. */
  function WithoutId(rows: seq<Listing>, id: string): (r: seq<Listing>)
    ensures |r| <= |rows|
    ensures forall p :: p in r <==> p in rows && p.id != id
    decreases |rows|
  {
    if rows == [] then []
    else (if rows[0].id != id then [rows[0]] else []) + WithoutId(rows[1..], id)
  }

  /** The filter works piece by piece, so the rows that remain keep their
      original order. */
  lemma {:induction false} WithoutIdDistributes(a: seq<Listing>, b: seq<Listing>, id: string)
    ensures WithoutId(a + b, id) == WithoutId(a, id) + WithoutId(b, id)
    decreases |a|
  {
    if a == [] {
      assert a + b == b;
    } else {
      assert (a + b)[1..] == a[1..] + b;
      WithoutIdDistributes(a[1..], b, id);
    }
  }

  /** Deleting an id no row carries changes nothing. */
  lemma {:induction false} WithoutAbsentId(rows: seq<Listing>, id: string)
    requires forall i :: 0 <= i < |rows| ==> rows[i].id != id
    ensures WithoutId(rows, id) == rows
    decreases |rows|
  {
    if rows != [] {
      WithoutAbsentId(rows[1..], id);
      assert [rows[0]] + rows[1..] == rows;
    }
  }

  /** Deleting the same id twice is deleting it once. */
  lemma WithoutIdIdempotent(rows: seq<Listing>, id: string)
    ensures WithoutId(WithoutId(rows, id), id) == WithoutId(rows, id)
  {
    var r := WithoutId(rows, id);
    forall i | 0 <= i < |r| ensures r[i].id != id {
      assert r[i] in r;
    }
    WithoutAbsentId(r, id);
  }

  /** What the screen shows. */
  datatype ListView =
    | Spinner
    | ErrorBanner(message: string)
    | Grid(cards: seq<Listing>, showsEmptyNotice: bool)

  /** The loading view wins over the error view, which wins over the grid; an
      error shows only when its message is non-empty (truthy); the grid shows the
      "No properties found" notice exactly when there are no rows. */
  function Render(loading: bool, error: Option<string>, rows: seq<Listing>): (v: ListView)
    ensures loading ==> v.Spinner?
    ensures !loading && error.Some? && error.value != "" ==> v == ErrorBanner(error.value)
    ensures v.Grid? <==> !loading && (error.None? || error.value == "")
    ensures v.Grid? ==> v.cards == rows && (v.showsEmptyNotice <==> |rows| == 0)
  {
    if loading then Spinner
    else if error.Some? && error.value != "" then ErrorBanner(error.value)
    else Grid(rows, |rows| == 0)
  }

  /** The listing screen's state. */
  class PropertyListScreen {
    var properties: seq<Listing>
    var loading: bool
    var error: Option<string>

    /** Before the first fetch: no rows, loading, no error. */
    constructor ()
      ensures properties == [] && loading && error.None?
    {
      properties := [];
      loading := true;
      error := None;
    }

    /** `fetchProperties`: take the rows that came back, or none when the data is
      null; a failure keeps the rows and sets the load error; either way the
      screen stops loading. */
    method FetchProperties(reply: DbReply<Option<seq<Listing>>>)
      modifies this
      ensures !loading
      ensures reply.DbOk? && reply.data.Some? ==> properties == reply.data.value && error == old(error)
      ensures reply.DbOk? && reply.data.None? ==> properties == [] && error == old(error)
      ensures reply.DbFailed? ==> properties == old(properties) && error == Some(LoadFailedMessage)
    {
      match reply {
        case DbOk(data) =>
          properties := if data.Some? then data.value else [];
        case DbFailed =>
          error := Some(LoadFailedMessage);
      }
      loading := false;
    }

    /** `handleDelete(id)`: nothing at all when the user declines the
      confirmation; otherwise one delete call, after which the rows with that id
      go when it succeeded and an alert is raised when it failed. */
    method HandleDelete(id: string, confirmed: bool, deleted: bool) returns (requested: bool, alert: Option<string>)
      modifies this
      ensures requested == confirmed
      ensures confirmed && deleted ==> properties == WithoutId(old(properties), id) && alert.None?
      ensures confirmed && !deleted ==> properties == old(properties) && alert == Some(DeleteFailedAlert)
      ensures !confirmed ==> properties == old(properties) && alert.None?
      ensures loading == old(loading) && error == old(error)
    {
      alert := None;
      requested := confirmed;
      if !confirmed {
        return;
      }
      if deleted {
        properties := WithoutId(properties, id);
      } else {
        alert := Some(DeleteFailedAlert);
      }
    }
  }
}
