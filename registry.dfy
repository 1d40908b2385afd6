/**
 * The gradebook service's resource list: built on first request, in the
 * order the dispatcher needs (each container after its element resource).
 */
module ServiceRegistry {
  import opened ResourceBase
  import LineItemResource
  import LineItemsResource
  import ResultResource
  import ScoreResource
  import ScoresResource

  /** The five resources, each container after its element. */
  function AllResources(): (r: seq<Descriptor>)
    ensures |r| == 5
    ensures r[0].id == "LineItem.item" && r[1].id == "LineItem.collection"
    ensures r[2].id == "Result.item" && r[3].id == "Score.item" && r[4].id == "Score.collection"
  {
    [LineItemResource.Resource, LineItemsResource.Resource, ResultResource.Resource,
     ScoreResource.Resource, ScoresResource.Resource]
  }

  class Service {
    var resources: seq<Descriptor>

    /** The list is either not built yet or holds all five resources. */
    ghost predicate Valid()
      reads this
    {
      resources == [] || resources == AllResources()
    }

    constructor ()
      ensures Valid() && resources == []
    {
      resources := [];
    }

    /** `get_resources`: builds the list when it is empty and returns it. */
    method GetResources() returns (r: seq<Descriptor>)
      requires Valid()
      modifies this
      ensures Valid()
      ensures r == AllResources() && resources == AllResources()
    {
      if resources == [] {
        resources := [LineItemResource.Resource, LineItemsResource.Resource, ResultResource.Resource,
                      ScoreResource.Resource, ScoresResource.Resource];
      }
      return resources;
    }
  }
}
