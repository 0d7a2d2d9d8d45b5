/**
 The goroutine that rewrites the shared route, as the code writes it.
 */
module SelectorLoop {
  import opened Base
  import opened Routing

  /** The shared map from the side a packet arrives on to the side it leaves by. */
  class RouteMap {
    var entries: map<Side, Side>

    constructor ()
      ensures entries == map[OUT := IN, IN := OUT] && RouteInv(entries, [])
    {
      entries := map[];
      new;
      Store(OUT, IN);
      Store(IN, OUT);
    }

    method Store(key: Side, value: Side)
      modifies this
      ensures entries == old(entries)[key := value]
    {
      entries := entries[key := value];
    }
  }

  /**
   Stores whatever it receives, for as long as it receives: afterwards the route from the inside is the
   last side received, and the route from the outside is untouched. Cancellation plays no part.
   */
  method OutInterfaceSelector(route: RouteMap, inputs: seq<Side>, ghost stored: seq<Side>)
    requires RouteInv(route.entries, stored)
    modifies route
    ensures RouteInv(route.entries, stored + inputs)
  {
    assert inputs[..0] == [] && stored + [] == stored;
    for k := 0 to |inputs|
      invariant RouteInv(route.entries, stored + inputs[..k])
    {
      var outInt := inputs[k];
      assert stored + inputs[..k + 1] == stored + inputs[..k] + [outInt];
      RouteAfterStore(route.entries, stored + inputs[..k], outInt);
      route.Store(IN, outInt);
    }
    assert inputs[..|inputs|] == inputs;
  }
}
