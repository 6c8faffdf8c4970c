/**
 * RoutesScreen: the list of saved routes, with delete.
 */
module RoutesScreen {
  import opened Domain
  import opened Seqs

  class Screen {
    var routes: seq<Route>
    const store: KeyValueStore

    /** The list starts empty; `store` is the device storage. */
    constructor (store: KeyValueStore)
      ensures routes == [] && this.store == store
    {
      routes := [];
      this.store := store;
    }

    /**
     * `loadRoutes`: a saved list replaces the one shown; a missing key,
     * or a read that fails, leaves it as it was.
     */
    method LoadRoutes(read: Outcome)
      modifies this`routes
      ensures read == Failed || RoutesKey !in store.entries || !store.entries[RoutesKey].RouteList? ==>
        routes == old(routes)
      ensures read == Succeeded && RoutesKey in store.entries && store.entries[RoutesKey].RouteList? ==>
        routes == store.entries[RoutesKey].routes
    {
      if read == Failed {
        return;
      }
      var saved := store.GetItem(RoutesKey);
      if saved.Some? && saved.value.RouteList? {
        routes := saved.value.routes;
      }
    }

    /**
     * `deleteRoute` once confirmed: every route with that id leaves the
     * list, the others keep their order, and the new list is written
     * back; a failed write leaves storage as it was but the list shown
     * is already the new one.
     */
    method DeleteRoute(id: string, write: Outcome)
      modifies this`routes, store
      ensures routes == WithoutId(old(routes), id, RouteId)
      ensures forall r :: r in routes <==> r in old(routes) && r.id != id
      ensures store.entries == if write == Succeeded then old(store.entries)[RoutesKey := RouteList(routes)]
                               else old(store.entries)
      ensures write == Succeeded ==> store.GetItem(RoutesKey) == Some(RouteList(routes))
    {
      routes := WithoutId(routes, id, RouteId);
      store.SetItem(RoutesKey, RouteList(routes), write);
    }
  }
}
