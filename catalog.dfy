/** The restaurant catalog: GET /api/restaurants and the name search of
    GET /api/users/restaurants/search. */
module Catalog {
  import opened Common
  import opened Strings
  import opened Seqs

  /** A row of the restaurants table. */
  datatype Restaurant = Restaurant(restaurant_id: int, name: string, location: string,
                                   description: string, photographs: string)

  /** An element of the catalog listing: every column of its row, plus `image`. */
  datatype Entry = Entry(row: Restaurant, image: string)

  /** The path prefix under which the server serves restaurant photos. */
  const ImagePrefix: string := "/images/"

  /** `restaurants.map(r => ({ ...r, image: `/images/${r.photographs}` }))`. */
  function WithImages(rows: seq<Restaurant>): (out: seq<Entry>)
    ensures |out| == |rows|
    ensures forall i :: 0 <= i < |rows| ==> out[i].row == rows[i]
    ensures forall i :: 0 <= i < |rows| ==> out[i].image == ImagePrefix + rows[i].photographs
  {
    if rows == [] then [] else [Entry(rows[0], ImagePrefix + rows[0].photographs)] + WithImages(rows[1..])
  }

  /** The photo reference can be read back from every image path. */
  lemma ImageNamesPhoto(rows: seq<Restaurant>, i: int)
    requires 0 <= i < |rows|
    ensures WithImages(rows)[i].image[|ImagePrefix|..] == rows[i].photographs
    ensures WithImages(rows)[i].image[..|ImagePrefix|] == ImagePrefix
  {
  }

  /** GET /api/restaurants: `query` is the result of `SELECT * FROM restaurants`,
      `None` when the query throws. */
  function ListRestaurants(query: Option<seq<Restaurant>>): (reply: Reply<seq<Entry>>)
    ensures query.None? ==> reply == Err(500, "Error fetching restaurants")
    ensures query.Some? ==> reply.Ok? && reply.status == 200 && |reply.value| == |query.value|
    ensures query.Some? ==> forall i :: 0 <= i < |query.value| ==>
      reply.value[i] == Entry(query.value[i], ImagePrefix + query.value[i].photographs)
  {
    match query
    case None => Err(500, "Error fetching restaurants")
    case Some(rows) => Ok(200, WithImages(rows))
  }

  /** GET /api/users/restaurants/search?name=: `name LIKE '%name%'`, taken as
      plain substring containment. Without a `name` parameter the template
      literal writes "undefined" into the pattern, and that word is searched for. */
  function Search(query: Option<seq<Restaurant>>, name: Option<string>): (reply: Reply<seq<Restaurant>>)
    ensures query.None? ==> reply == Err(500, "Error searching for restaurants.")
    ensures query.Some? ==> reply.Ok? && reply.status == 200
    ensures var term := if name.Some? then name.value else "undefined";
      && (query.Some? ==> forall r :: r in reply.value ==> r in query.value && Contains(r.name, term))
      && (query.Some? ==> forall r :: r in query.value && Contains(r.name, term) ==> r in reply.value)
  {
    var term := match name case Some(n) => n case None => "undefined";
    match query
    case None => Err(500, "Error searching for restaurants.")
    case Some(rows) => Ok(200, Filter(rows, (r: Restaurant) => Contains(r.name, term)))
  }

  /** An empty search term, `?name=`, matches every restaurant, in table order. */
  lemma SearchEmptyTerm(rows: seq<Restaurant>)
    ensures Search(Some(rows), Some("")) == Ok(200, rows)
  {
    forall r | r in rows ensures Contains(r.name, "") {
      ContainsEmpty(r.name);
    }
    FilterKeepsAll(rows, (r: Restaurant) => Contains(r.name, ""));
  }
}
