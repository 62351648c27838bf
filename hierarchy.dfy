/**
 * The hierarchy page: one level of the browsable tier tree. It is told its
 * depth by the page that pushed it, fetches the ontology, takes the tier at
 * that depth as its header, fetches that tier's records (when online) and
 * pushes the next level only while a deeper tier exists.
 */
module Hierarchy {
  import opened Js
  import opened Ontology

  /** Where the page reads the ontology from, online and offline alike. */
  const OntologyFile := "../../assets/data/db.json"

  /** The response the page is waiting for; each request is answered at most once. */
  datatype Awaiting =
    | Nothing
    | OntologyFor(depth: int, online: bool)  // `depth` is the value the callback captured
    | NextData

  /** A page pushed onto the navigation stack, with the parameters it is given. */
  datatype Destination =
    | NextLevel(hierarchydepth: int, name: string)
    | Characteristics(top: Option<Tier>, dataURI: Option<string>, data: Option<seq<Record>>)

  /** `result[depth]`: the tier at that depth, or `undefined` outside the list. */
  function TierAt(result: seq<Tier>, depth: int): (t: Option<Tier>)
    ensures t.Some? <==> 0 <= depth < |result|
    ensures t.Some? ==> t.value == result[depth]
  {
    if 0 <= depth < |result| then Some(result[depth]) else None
  }

  class HierarchyPage {
    var items: Option<seq<Tier>>
    var hierarchyTop: Option<Tier>
    var subURI: Option<string>
    var dataObject: Option<seq<Record>>
    var currentDisplayPath: Value
    var maxIndex: Option<int>
    var hierarchyDepth: int
    /** Every URL the page has requested, in order. */
    var requests: seq<string>
    var awaiting: Awaiting
    /** Every page pushed from here, in order. */
    var navigation: seq<Destination>

    /** Once the ontology has arrived, the header is the tier just above `hierarchyDepth`. */
    ghost predicate Valid()
      reads this
    {
      && (maxIndex.Some? ==>
            items.Some? && maxIndex.value == |items.value|
            && hierarchyTop == TierAt(items.value, hierarchyDepth - 1))
      && (awaiting.OntologyFor? ==> maxIndex.None? && subURI.None?)
      && (awaiting == NextData ==>
            subURI.Some? && hierarchyTop.Some?
            && subURI.value == GetUri(DataRemote, hierarchyTop.value.plural)
            && |requests| > 0 && requests[|requests| - 1] == subURI.value)
    }

    /**
     * The page is created with the `hierarchydepth` and `name` navigation
     * parameters (`None` stands for a missing or null depth) and asks for the
     * ontology at once.
     */
    constructor (navDepth: Option<int>, name: Value, online: bool)
      ensures Valid()
      ensures hierarchyDepth == (if navDepth.None? then 0 else navDepth.value)
      ensures currentDisplayPath == name
      ensures items.None? && hierarchyTop.None? && subURI.None? && dataObject.None? && maxIndex.None?
      ensures requests == [OntologyFile] && navigation == []
      ensures awaiting == OntologyFor(hierarchyDepth, online)
    {
      if navDepth.None? {
        hierarchyDepth := 0;
      } else {
        hierarchyDepth := navDepth.value;
      }
      currentDisplayPath := name;
      items, hierarchyTop, subURI, dataObject, maxIndex := None, None, None, None, None;
      requests, navigation := [], [];
      awaiting := Nothing;
      new;
      GetHierarchyData(hierarchyDepth, online);
    }

    /** `getHierarchyData(depth)`: one request for the ontology; `online` picks the callback. */
    method GetHierarchyData(depth: int, online: bool)
      requires awaiting == Nothing && maxIndex.None? && subURI.None?
      modifies this`requests, this`awaiting
      ensures requests == old(requests) + [OntologyFile]
      ensures awaiting == OntologyFor(depth, online)
    {
      requests := requests + [OntologyFile];
      awaiting := OntologyFor(depth, online);
    }

    /**
     * The ontology response: both branches record the header tier, the
     * number of tiers and the next depth; only the online branch derives the
     * tier's fetch URL and requests its records. Reading the label of a
     * header outside the list throws, which ends the online callback early.
     */
    method OntologyArrives(result: seq<Tier>)
      requires Valid() && awaiting.OntologyFor?
      modifies this
      ensures Valid()
      ensures var depth := old(awaiting).depth;
        && items == Some(result)
        && hierarchyTop == TierAt(result, depth)
        && maxIndex == Some(|result|)
        && hierarchyDepth == depth + 1
      ensures old(awaiting).online && hierarchyTop.Some? ==>
        && subURI == Some(GetUri(DataRemote, hierarchyTop.value.plural))
        && requests == old(requests) + [subURI.value]
        && awaiting == NextData
      ensures !(old(awaiting).online && hierarchyTop.Some?) ==>
        subURI == old(subURI) && requests == old(requests) && awaiting == Nothing
      ensures dataObject == old(dataObject) && currentDisplayPath == old(currentDisplayPath)
      ensures navigation == old(navigation)
    {
      var depth, online := awaiting.depth, awaiting.online;
      awaiting := Nothing;
      if online {
        items := Some(result);
        hierarchyTop := TierAt(result, depth);
        maxIndex := Some(|result|);
        hierarchyDepth := depth + 1;
        if hierarchyTop.Some? {
          subURI := Some(GetUri(DataRemote, hierarchyTop.value.plural));
          GetNextData();
        }
      } else {
        hierarchyTop := TierAt(result, depth);
        maxIndex := Some(|result|);
        hierarchyDepth := depth + 1;
        items := Some(result);
      }
    }

    /** `getNextData`: request the records behind `subURI`. */
    method GetNextData()
      requires subURI.Some?
      modifies this`requests, this`awaiting
      ensures requests == old(requests) + [subURI.value]
      ensures awaiting == NextData
    {
      requests := requests + [subURI.value];
      awaiting := NextData;
    }

    /** The records of the header tier arrive. */
    method DataArrives(result: seq<Record>)
      requires Valid() && awaiting == NextData
      modifies this`dataObject, this`awaiting
      ensures Valid()
      ensures dataObject == Some(result) && awaiting == Nothing
    {
      dataObject := Some(result);
      awaiting := Nothing;
    }

    /**
     * `push(item)`: go one level deeper only while `hierarchyDepth` is a
     * valid tier index; the next page gets that depth and the item's name.
     */
    method Push(item: Record)
      requires Valid()
      modifies this`navigation
      ensures Valid()
      ensures var go := maxIndex.Some? && hierarchyDepth <= maxIndex.value - 1;
        navigation == if go
          then old(navigation) + [NextLevel(hierarchyDepth, Text(Get(item, "Name")) + " - ")]
          else old(navigation)
      ensures navigation != old(navigation) ==> items.Some? && hierarchyDepth < |items.value|
    {
      if maxIndex.Some? && hierarchyDepth <= maxIndex.value - 1 {
        navigation := navigation + [NextLevel(hierarchyDepth, Text(Get(item, "Name")) + " - ")];
      }
    }

    /** `viewCharacteristics`: open the record view, but only while online. */
    method ViewCharacteristics(online: bool)
      modifies this`navigation
      ensures navigation == if online
        then old(navigation) + [Characteristics(hierarchyTop, subURI, dataObject)]
        else old(navigation)
    {
      if online {
        navigation := navigation + [Characteristics(hierarchyTop, subURI, dataObject)];
      }
    }
  }

  /**
   * Descending from the root page: with the same ontology on both levels,
   * `push` opens a second level exactly when the ontology has a second tier,
   * and that page's header is the second tier.
   */
  method DescendFromRoot(result: seq<Tier>, item: Record, online: bool)
    returns (descended: bool, top: Option<Tier>, depth: int)
    ensures descended <==> |result| >= 2
    ensures descended ==> top == Some(result[1]) && depth == 2
  {
    var root := new HierarchyPage(None, Str("NRDC"), online);
    root.OntologyArrives(result);
    root.Push(item);
    descended := |root.navigation| == 1;
    top, depth := None, 0;
    if descended {
      var dest := root.navigation[0];
      var next := new HierarchyPage(Some(dest.hierarchydepth), Str(dest.name), online);
      next.OntologyArrives(result);
      top, depth := next.hierarchyTop, next.hierarchyDepth;
    }
  }
}
