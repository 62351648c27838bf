/**
 * The hierarchy controller page: it loads the ontology and then the records
 * of every tier, keeping track of progress in six session-wide flags, and
 * finally opens the hierarchy page (or reports an error and goes home).
 *
 * Each HTTP response and each storage read is a separate step here (the
 * `...Arrives` and `...Fails` methods), which may happen whenever the request
 * is outstanding. `loadAll` is cut at the points where it gives way to such
 * steps: `LoadAll` is the part before `await this.loadDataWaiting()` yields,
 * `ResumeLoadAll` the part up to the polling loops, and `FinishLoadAll` the
 * part after both polling loops have ended.
 */
module Controller {
  import opened Js
  import opened Ontology

  /** Where `getHierarchyData` reads the ontology from. */
  const OntologyFile := "../../assets/data/ontology.json"
  /** Storage key the ontology is saved under. */
  const OntologyKey := "ontology"
  /** Storage key of the previously saved records. */
  const LocalDataKey := "localDataObject"
  /** The load page that marks an ontology error. */
  const OntologyPage := "hierarchy"

  /** The records fetched for one tier. */
  type TierData = seq<Record>

  /** The six flags of the hierarchy-controller provider. */
  datatype SyncFlags = SyncFlags(
    ontologySynced: bool, ontologyLoaded: bool, ontologyDoneLoading: bool,
    dataSynced: bool, dataLoaded: bool, dataDoneLoading: bool)

  const AllClear := SyncFlags(false, false, false, false, false, false)

  /** The session-wide provider state a controller page starts from and leaves behind. */
  datatype Providers = Providers(
    flags: SyncFlags,
    tiers: seq<Tier>,
    subURIs: map<int, string>,
    dataObject: map<int, TierData>,
    updateStatus: map<int, bool>)

  /** What the key-value storage holds under a key. */
  datatype Stored = StoredTiers(tiers: seq<Tier>) | StoredData(slots: map<int, TierData>)

  datatype Screen = OntologyScreen | DataScreen | ErrorScreen(loadPage: string)

  /** The error message shown: which load failed, and the reported status. */
  datatype ErrorNotice = ErrorNotice(loadPage: string, status: Value)

  datatype Destination = Home | HierarchyRoot(name: string, pathName: string)

  /** How far `loadAll` has got. */
  datatype Phase = Starting | WaitingForData | Polling | Finished

  /** The records a storage read of `localDataObject` hands over (nothing usable reads as no records). */
  function StoredRecords(storage: map<string, Stored>): map<int, TierData> {
    if LocalDataKey in storage && storage[LocalDataKey].StoredData? then storage[LocalDataKey].slots else map[]
  }

  /**
   * What `getData` has sent and recorded so far: the requested URLs, the
   * outstanding responses (tier index to plural label), the service roots
   * and update marks by tier index, and the last URL built.
   */
  datatype Dispatch = Dispatch(
    sent: seq<string>,
    replies: map<int, string>,
    roots: map<int, string>,
    status: map<int, bool>,
    uri: Option<string>)

  /** One iteration of `getData`'s loop, for tier `ii`. */
  function DispatchTier(base: string, d: Dispatch, ts: seq<Tier>, ii: nat): Dispatch
    requires ii < |ts|
  {
    var url := GetUri(base, ts[ii].plural);
    Dispatch(
      d.sent + [url],
      d.replies[ii := ts[ii].plural],
      d.roots[ii := ServiceUri(base, ts[ii].plural)],
      d.status[ii := false],
      Some(url))
  }

  /** The first `n` iterations of `getData`'s loop, in order, starting from `d`. */
  function DispatchTiers(base: string, d: Dispatch, ts: seq<Tier>, n: nat): Dispatch
    requires n <= |ts|
  {
    if n == 0 then d else DispatchTier(base, DispatchTiers(base, d, ts, n - 1), ts, n - 1)
  }

  /**
   * After `n` iterations one request per tier `0..n-1` has been sent, in tier
   * order, to the URL derived from that tier's label, and the last URL built
   * is the last tier's.
   */
  lemma {:induction false} DispatchSends(base: string, d: Dispatch, ts: seq<Tier>, n: nat)
    requires n <= |ts|
    ensures var e := DispatchTiers(base, d, ts, n);
      && |e.sent| == |d.sent| + n
      && e.sent[..|d.sent|] == d.sent
      && (forall ii :: 0 <= ii < n ==> e.sent[|d.sent| + ii] == GetUri(base, ts[ii].plural))
      && e.uri == if n == 0 then d.uri else Some(GetUri(base, ts[n - 1].plural))
  {
    if n > 0 {
      DispatchSends(base, d, ts, n - 1);
    }
  }

  /**
   * After `n` iterations every tier slot `0..n-1` awaits exactly one
   * response, labelled with its own tier; other outstanding responses are
   * as they were.
   */
  lemma {:induction false} DispatchReplies(base: string, d: Dispatch, ts: seq<Tier>, n: nat)
    requires n <= |ts|
    ensures forall ii :: ii in DispatchTiers(base, d, ts, n).replies <==> ii in d.replies || 0 <= ii < n
    ensures forall ii :: 0 <= ii < n ==> DispatchTiers(base, d, ts, n).replies[ii] == ts[ii].plural
    ensures forall ii :: ii in d.replies && !(0 <= ii < n) ==> DispatchTiers(base, d, ts, n).replies[ii] == d.replies[ii]
  {
    if n > 0 {
      DispatchReplies(base, d, ts, n - 1);
    }
  }

  /**
   * A completed `getData` walk over the whole tier list, as the page records
   * it: one request per tier appended in tier order, and one outstanding
   * response per tier slot on top of those already outstanding.
   */
  lemma DispatchAll(base: string, d: Dispatch, ts: seq<Tier>, e: Dispatch)
    requires e == DispatchTiers(base, d, ts, |ts|)
    ensures |e.sent| == |d.sent| + |ts| && e.sent[..|d.sent|] == d.sent
    ensures forall ii :: 0 <= ii < |ts| ==> e.sent[|d.sent| + ii] == GetUri(base, ts[ii].plural)
    ensures forall ii :: ii in e.replies <==> ii in d.replies || 0 <= ii < |ts|
    ensures forall ii :: 0 <= ii < |ts| ==> e.replies[ii] == ts[ii].plural
  {
    DispatchSends(base, d, ts, |ts|);
    DispatchReplies(base, d, ts, |ts|);
  }

  /** After `n` iterations every tier slot `0..n-1` holds the service root derived from its own tier. */
  lemma {:induction false} DispatchRoots(base: string, d: Dispatch, ts: seq<Tier>, n: nat)
    requires n <= |ts|
    ensures forall ii :: ii in DispatchTiers(base, d, ts, n).roots <==> ii in d.roots || 0 <= ii < n
    ensures forall ii :: 0 <= ii < n ==> DispatchTiers(base, d, ts, n).roots[ii] == ServiceUri(base, ts[ii].plural)
    ensures forall ii :: ii in d.roots && !(0 <= ii < n) ==> DispatchTiers(base, d, ts, n).roots[ii] == d.roots[ii]
  {
    if n > 0 {
      DispatchRoots(base, d, ts, n - 1);
    }
  }

  /** After `n` iterations every tier slot `0..n-1` is marked as not updated locally. */
  lemma {:induction false} DispatchStatus(base: string, d: Dispatch, ts: seq<Tier>, n: nat)
    requires n <= |ts|
    ensures forall ii :: ii in DispatchTiers(base, d, ts, n).status <==> ii in d.status || 0 <= ii < n
    ensures forall ii :: 0 <= ii < n ==> !DispatchTiers(base, d, ts, n).status[ii]
    ensures forall ii :: ii in d.status && !(0 <= ii < n) ==> DispatchTiers(base, d, ts, n).status[ii] == d.status[ii]
  {
    if n > 0 {
      DispatchStatus(base, d, ts, n - 1);
    }
  }

  class HierarchyController {
    // The hierarchy-controller provider (session-wide).
    var ontologySynced: bool
    var ontologyLoaded: bool
    var ontologyDoneLoading: bool
    var dataSynced: bool
    var dataLoaded: bool
    var dataDoneLoading: bool
    var updateStatus: map<int, bool>
    // The global data handler provider (session-wide).
    var tiers: seq<Tier>
    var subURIs: map<int, string>
    var dataObject: map<int, TierData>
    // The key-value storage.
    var storage: map<string, Stored>
    // The page's own fields.
    var subURI: Option<string>
    var loadingScreens: seq<Screen>
    var isError: bool
    var isTest: bool
    /** `getData`'s loop counter `i`, which every response callback reads when it runs. */
    var loopCounter: int
    /** The length of the tier list `getData` iterated over, as its callbacks see it. */
    var loopBound: int
    // The outside world.
    const online: bool
    /** Every URL requested over HTTP, in order. */
    var requests: seq<string>
    var awaitingOntology: bool
    /** Outstanding tier responses: tier index to the tier's plural label. */
    var awaitingTiers: map<int, string>
    var awaitingLocalData: bool
    /** Every error message shown, in order. */
    var notices: seq<ErrorNotice>
    /** Every page set as navigation root, in order. */
    var navigation: seq<Destination>
    var phase: Phase

    function Flags(): SyncFlags
      reads this
    {
      SyncFlags(ontologySynced, ontologyLoaded, ontologyDoneLoading, dataSynced, dataLoaded, dataDoneLoading)
    }

    /** What `getData` has sent and recorded, as seen in the page's state. */
    function Dispatched(): Dispatch
      reads this
    {
      Dispatch(requests, awaitingTiers, subURIs, updateStatus, subURI)
    }

    /** The provider state a later page would start from. */
    function ProviderState(): Providers
      reads this
    {
      Providers(Flags(), tiers, subURIs, dataObject, updateStatus)
    }

    /**
     * The loading screens are exactly the two that `loadAll` pushed while it
     * is between its pushes and its pops; every outstanding tier response
     * has a slot of the tier list `getData` walked, and the loop that issued
     * it has finished.
     */
    ghost predicate Valid()
      reads this
    {
      && loadingScreens == (if phase == WaitingForData || phase == Polling then [OntologyScreen, DataScreen] else [])
      && (phase == Starting ==> !awaitingOntology && requests == [])
      && (phase == Starting || phase == WaitingForData ==> awaitingTiers == map[] && !awaitingLocalData)
      && (awaitingTiers != map[] ==> loopCounter == loopBound)
      && (forall ii :: ii in awaitingTiers ==> 0 <= ii < loopBound)
    }

    /** The page is created over the current provider and storage state and runs `loadAll` at once. */
    constructor (online: bool, providers: Providers, storage: map<string, Stored>)
      ensures Valid()
      ensures this.online == online && this.storage == storage
      ensures tiers == providers.tiers && subURIs == providers.subURIs
      ensures dataObject == providers.dataObject && updateStatus == providers.updateStatus
      ensures !isTest && subURI == None && awaitingTiers == map[] && !awaitingLocalData
      ensures online ==> phase == WaitingForData && !isError && notices == [] && navigation == []
      ensures online && !providers.flags.ontologySynced && !providers.flags.ontologyLoaded ==>
        && requests == [OntologyFile] && awaitingOntology
        && Flags() == providers.flags.(ontologySynced := true, ontologyLoaded := true, ontologyDoneLoading := false)
      ensures online && (providers.flags.ontologySynced || providers.flags.ontologyLoaded) ==>
        && requests == [] && !awaitingOntology && Flags() == providers.flags
      ensures !online ==>
        && phase == Finished && isError && requests == [] && !awaitingOntology
        && notices == [ErrorNotice("Connection", Str("Offline"))] && navigation == [Home]
        && Flags() == providers.flags.(dataSynced := false, dataLoaded := false, dataDoneLoading := false)
    {
      var f := providers.flags;
      ontologySynced, ontologyLoaded, ontologyDoneLoading := f.ontologySynced, f.ontologyLoaded, f.ontologyDoneLoading;
      dataSynced, dataLoaded, dataDoneLoading := f.dataSynced, f.dataLoaded, f.dataDoneLoading;
      tiers, subURIs, dataObject, updateStatus := providers.tiers, providers.subURIs, providers.dataObject, providers.updateStatus;
      this.storage := storage;
      this.online := online;
      subURI, loadingScreens, isError, isTest := None, [], false, false;
      loopCounter, loopBound := 0, 0;
      requests, awaitingOntology, awaitingTiers, awaitingLocalData := [], false, map[], false;
      notices, navigation, phase := [], [], Starting;
      new;
      assert Valid() && Flags() == providers.flags;
      ghost var kept := (tiers, subURIs, dataObject, updateStatus, storage, isTest, subURI, awaitingTiers, awaitingLocalData);
      LoadAll();
      assert kept == (tiers, subURIs, dataObject, updateStatus, storage, isTest, subURI, awaitingTiers, awaitingLocalData);
    }

    /**
     * The synchronous start of `loadAll`: online, show the ontology screen,
     * run `getOntology` and push the data screen; offline, report a
     * connection error.
     */
    method LoadAll()
      requires Valid() && phase == Starting
      modifies this`loadingScreens, this`requests, this`awaitingOntology, this`phase, this`isError, this`notices,
        this`navigation, this`ontologySynced, this`ontologyLoaded, this`ontologyDoneLoading,
        this`dataSynced, this`dataLoaded, this`dataDoneLoading
      ensures Valid()
      ensures online ==>
        var f := old(Flags());
        var fetch := !f.ontologySynced && !f.ontologyLoaded;
        && phase == WaitingForData && isError == old(isError)
        && notices == old(notices) && navigation == old(navigation)
        && requests == (if fetch then [OntologyFile] else []) && awaitingOntology == fetch
        && Flags() == (if fetch then f.(ontologySynced := true, ontologyLoaded := true, ontologyDoneLoading := false) else f)
      ensures !online ==>
        && phase == Finished && isError && requests == [] && !awaitingOntology
        && notices == old(notices) + [ErrorNotice("Connection", Str("Offline"))]
        && navigation == old(navigation) + [Home]
        && Flags() == old(Flags()).(dataSynced := false, dataLoaded := false, dataDoneLoading := false)
    {
      if online {
        LoadOntologyWaiting();
        GetOntology();
        LoadDataWaiting();
        phase := WaitingForData;
      } else {
        ShowError(Str("Offline"), "Connection");
        phase := Finished;
      }
    }

    /** What `loadAll` does once `await this.loadDataWaiting()` resumes: `getAllData`. */
    method ResumeLoadAll()
      requires Valid() && phase == WaitingForData
      modifies this`requests, this`awaitingTiers, this`subURI, this`subURIs, this`updateStatus,
        this`loopCounter, this`loopBound, this`dataSynced, this`dataLoaded, this`awaitingLocalData, this`phase
      ensures Valid() && phase == Polling
      ensures !old(dataSynced) && !old(dataLoaded) ==>
        && Dispatched() == DispatchTiers(DataRemote, old(Dispatched()), tiers, |tiers|)
        && loopCounter == loopBound == |tiers|
        && dataSynced && dataLoaded && !awaitingLocalData
      ensures old(dataSynced) || old(dataLoaded) ==>
        && Dispatched() == old(Dispatched())
        && loopCounter == old(loopCounter) && loopBound == old(loopBound)
        && dataSynced == old(dataSynced) && dataLoaded == old(dataLoaded)
        && awaitingLocalData == (dataSynced && !dataLoaded)
    {
      GetAllData();
      DispatchReplies(DataRemote, old(Dispatched()), tiers, |tiers|);
      phase := Polling;
    }

    /**
     * `loadAll` resuming as intended: a load that has already failed stops
     * instead of running `getAllData`.
     */
    method ResumeLoadAllUnlessFailed()
      requires Valid() && phase == WaitingForData
      modifies this`requests, this`awaitingTiers, this`subURI, this`subURIs, this`updateStatus,
        this`loopCounter, this`loopBound, this`dataSynced, this`dataLoaded, this`awaitingLocalData, this`phase
      ensures Valid() && phase == Polling
      ensures isError ==>
        && Dispatched() == old(Dispatched())
        && loopCounter == old(loopCounter) && loopBound == old(loopBound)
        && Flags() == old(Flags()) && !awaitingLocalData
      ensures !isError && !old(dataSynced) && !old(dataLoaded) ==>
        && Dispatched() == DispatchTiers(DataRemote, old(Dispatched()), tiers, |tiers|)
        && loopCounter == loopBound == |tiers|
        && dataSynced && dataLoaded && !awaitingLocalData
      ensures !isError && (old(dataSynced) || old(dataLoaded)) ==>
        && Dispatched() == old(Dispatched())
        && loopCounter == old(loopCounter) && loopBound == old(loopBound)
        && dataSynced == old(dataSynced) && dataLoaded == old(dataLoaded)
        && awaitingLocalData == (dataSynced && !dataLoaded)
    {
      if isError {
        phase := Polling;
      } else {
        ResumeLoadAll();
      }
    }

    /**
     * The end of `loadAll`, reached once both polling loops have stopped:
     * the ontology is done (or an error occurred) and so are the records.
     * Both loading screens are popped, and only an error-free load opens
     * the hierarchy page at the first tier, as the test or the normal root.
     */
    method FinishLoadAll()
      requires Valid() && phase == Polling
      requires ontologyDoneLoading || isError
      requires dataDoneLoading || isError
      modifies this`loadingScreens, this`navigation, this`phase
      ensures Valid() && phase == Finished
      ensures loadingScreens == []
      ensures navigation == if !isError && tiers != []
        then old(navigation) + [HierarchyRoot(if isTest then "TEST" else "NRDC", tiers[0].plural)]
        else old(navigation)
    {
      loadingScreens := loadingScreens[..|loadingScreens| - 1];
      loadingScreens := loadingScreens[..|loadingScreens| - 1];
      phase := Finished;
      if !isError {
        if isTest {
          GoHierarchyPage("TEST");
        } else {
          GoHierarchyPage("NRDC");
        }
      }
    }

    /**
     * `goHierachyPage` and `goHierachyPageTest`: open the hierarchy page at
     * depth 0, labelled with the first tier. Reading the first tier of an
     * empty tier list throws, and then nothing is opened.
     */
    method GoHierarchyPage(name: string)
      modifies this`navigation
      ensures navigation == if tiers != []
        then old(navigation) + [HierarchyRoot(name, tiers[0].plural)]
        else old(navigation)
    {
      if tiers != [] {
        navigation := navigation + [HierarchyRoot(name, tiers[0].plural)];
      }
    }

    method GoHome()
      modifies this`navigation
      ensures navigation == old(navigation) + [Home]
    {
      navigation := navigation + [Home];
    }

    /**
     * `showError`: mark the page as failed and clear the flags of the failed
     * load so that a later attempt starts over. A failure of the ontology
     * clears all six flags; any other failure clears only the data flags.
     * The error screen is pushed, shown and popped again, and the user is
     * sent home.
     */
    method ShowError(status: Value, loadPage: string)
      modifies this`isError, this`ontologySynced, this`ontologyLoaded, this`ontologyDoneLoading,
        this`dataSynced, this`dataLoaded, this`dataDoneLoading, this`loadingScreens, this`notices, this`navigation
      ensures isError
      ensures loadPage == OntologyPage ==> Flags() == AllClear
      ensures loadPage != OntologyPage ==>
        Flags() == old(Flags()).(dataSynced := false, dataLoaded := false, dataDoneLoading := false)
      ensures loadingScreens == old(loadingScreens)
      ensures notices == old(notices) + [ErrorNotice(loadPage, status)]
      ensures navigation == old(navigation) + [Home]
    {
      isError := true;
      if loadPage == OntologyPage {
        ontologySynced := false;
        ontologyLoaded := false;
        ontologyDoneLoading := false;
        dataSynced := false;
        dataLoaded := false;
        dataDoneLoading := false;
      } else {
        dataSynced := false;
        dataLoaded := false;
        dataDoneLoading := false;
      }
      loadingScreens := loadingScreens + [ErrorScreen(loadPage)];
      notices := notices + [ErrorNotice(loadPage, status)];
      loadingScreens := loadingScreens[..|loadingScreens| - 1];
      GoHome();
    }

    /**
     * `getOntology`: fetch the ontology only when it is neither synced nor
     * loaded, and mark it loaded and synced as soon as the request is out,
     * before any response.
     */
    method GetOntology()
      requires !awaitingOntology
      modifies this`requests, this`awaitingOntology, this`ontologySynced, this`ontologyLoaded, this`ontologyDoneLoading
      ensures var fetch := !old(ontologySynced) && !old(ontologyLoaded);
        && requests == (if fetch then old(requests) + [OntologyFile] else old(requests))
        && awaitingOntology == fetch
        && (fetch ==> ontologySynced && ontologyLoaded && !ontologyDoneLoading)
        && (!fetch ==> ontologySynced == old(ontologySynced) && ontologyLoaded == old(ontologyLoaded)
                       && ontologyDoneLoading == old(ontologyDoneLoading))
    {
      if !ontologySynced {
        if !ontologyLoaded {
          GetHierarchyData();
          ontologyLoaded := true;
          ontologySynced := true;
        }
      }
    }

    /** `getHierarchyData`: request the ontology; it is not done until the response arrives. */
    method GetHierarchyData()
      requires !awaitingOntology
      modifies this`requests, this`awaitingOntology, this`ontologyDoneLoading
      ensures requests == old(requests) + [OntologyFile]
      ensures awaitingOntology && !ontologyDoneLoading
    {
      requests := requests + [OntologyFile];
      ontologyDoneLoading := false;
      awaitingOntology := true;
    }

    /** The ontology response: publish the tiers, mark the ontology done and save it. */
    method OntologyArrives(result: seq<Tier>)
      requires Valid() && awaitingOntology
      modifies this`tiers, this`ontologyDoneLoading, this`storage, this`awaitingOntology
      ensures Valid()
      ensures tiers == result && ontologyDoneLoading && !awaitingOntology
      ensures storage == old(storage)[OntologyKey := StoredTiers(result)]
    {
      awaitingOntology := false;
      tiers := result;
      ontologyDoneLoading := true;
      storage := storage[OntologyKey := StoredTiers(tiers)];
    }

    /** The ontology request fails: an ontology error, which clears every flag. */
    method OntologyFails(status: Value)
      requires Valid() && awaitingOntology
      modifies this`isError, this`ontologySynced, this`ontologyLoaded, this`ontologyDoneLoading,
        this`dataSynced, this`dataLoaded, this`dataDoneLoading, this`loadingScreens, this`notices,
        this`navigation, this`awaitingOntology
      ensures Valid()
      ensures isError && Flags() == AllClear && !awaitingOntology
      ensures notices == old(notices) + [ErrorNotice(OntologyPage, status)]
      ensures navigation == old(navigation) + [Home]
    {
      awaitingOntology := false;
      ShowError(status, OntologyPage);
    }

    /**
     * `getAllData`: not synced and not loaded, fetch every tier and mark the
     * data synced and loaded at once; synced but not loaded, read the saved
     * records from storage; otherwise do nothing.
     */
    method GetAllData()
      requires Valid() && phase == WaitingForData
      modifies this`requests, this`awaitingTiers, this`subURI, this`subURIs, this`updateStatus,
        this`loopCounter, this`loopBound, this`dataSynced, this`dataLoaded, this`awaitingLocalData
      ensures var fetch := !old(dataSynced) && !old(dataLoaded);
        && (fetch ==>
              && Dispatched() == DispatchTiers(DataRemote, old(Dispatched()), tiers, |tiers|)
              && loopCounter == loopBound == |tiers|
              && dataSynced && dataLoaded && !awaitingLocalData)
        && (!fetch ==>
              && Dispatched() == old(Dispatched())
              && loopCounter == old(loopCounter) && loopBound == old(loopBound)
              && dataSynced == old(dataSynced) && dataLoaded == old(dataLoaded)
              && awaitingLocalData == (dataSynced && !dataLoaded))
    {
      if !dataSynced {
        if !dataLoaded {
          GetData();
          dataSynced := true;
          dataLoaded := true;
        }
      } else {
        if !dataLoaded {
          awaitingLocalData := true;
        }
      }
    }

    /**
     * `getData`: for every tier, in order, derive its endpoint from its
     * plural label, record the service root at the tier's index, request
     * its records and mark the tier as not updated locally.
     */
    method GetData()
      modifies this`requests, this`awaitingTiers, this`subURI, this`subURIs, this`updateStatus,
        this`loopCounter, this`loopBound
      ensures loopCounter == |tiers| && loopBound == |tiers|
      ensures Dispatched() == DispatchTiers(DataRemote, old(Dispatched()), tiers, |tiers|)
    {
      var dataRemote := DataRemote;
      var hierarchyTiers := tiers;
      loopBound := |hierarchyTiers|;
      loopCounter := 0;
      while loopCounter < |hierarchyTiers|
        invariant 0 <= loopCounter <= |hierarchyTiers| && loopBound == |hierarchyTiers|
        invariant Dispatched() == DispatchTiers(dataRemote, old(Dispatched()), hierarchyTiers, loopCounter)
      {
        var ii := loopCounter;
        var plural := hierarchyTiers[ii].plural;
        subURIs := subURIs[ii := ServiceUri(dataRemote, plural)];
        subURI := Some(GetUri(dataRemote, plural));
        requests := requests + [subURI.value];
        awaitingTiers := awaitingTiers[ii := plural];
        updateStatus := updateStatus[ii := false];
        loopCounter := loopCounter + 1;
      }
    }

    /**
     * A tier's records arrive: they go to that tier's own slot, and the data
     * is marked done when the shared loop counter equals the tier count,
     * which it always does by now, so the first tier to answer marks all
     * data done.
     */
    method TierArrives(ii: int, result: TierData)
      requires Valid() && ii in awaitingTiers
      modifies this`dataObject, this`dataDoneLoading, this`awaitingTiers
      ensures Valid()
      ensures dataObject == old(dataObject)[ii := result]
      ensures awaitingTiers == old(awaitingTiers) - {ii}
      ensures dataDoneLoading == (old(dataDoneLoading) || loopCounter == loopBound)
      ensures dataDoneLoading
    {
      awaitingTiers := awaitingTiers - {ii};
      dataObject := dataObject[ii := result];
      if loopCounter == loopBound {
        dataDoneLoading := true;
      }
    }

    /** A tier's request fails: a data error named by the tier's plural label. */
    method TierFails(ii: int, status: Value)
      requires Valid() && ii in awaitingTiers
      modifies this`isError, this`ontologySynced, this`ontologyLoaded, this`ontologyDoneLoading,
        this`dataSynced, this`dataLoaded, this`dataDoneLoading, this`loadingScreens, this`notices,
        this`navigation, this`awaitingTiers
      ensures Valid()
      ensures isError && awaitingTiers == old(awaitingTiers) - {ii}
      ensures notices == old(notices) + [ErrorNotice(old(awaitingTiers)[ii], status)]
      ensures navigation == old(navigation) + [Home]
      ensures old(awaitingTiers)[ii] == OntologyPage ==> Flags() == AllClear
      ensures old(awaitingTiers)[ii] != OntologyPage ==>
        Flags() == old(Flags()).(dataSynced := false, dataLoaded := false, dataDoneLoading := false)
    {
      var plural := awaitingTiers[ii];
      awaitingTiers := awaitingTiers - {ii};
      ShowError(status, plural);
    }

    /** The saved records arrive from storage: the page switches to test mode with them. */
    method LocalDataArrives()
      requires Valid() && awaitingLocalData
      modifies this`dataObject, this`isTest, this`dataDoneLoading, this`dataLoaded, this`awaitingLocalData
      ensures Valid()
      ensures dataObject == StoredRecords(storage)
      ensures isTest && dataDoneLoading && dataLoaded && !awaitingLocalData
    {
      awaitingLocalData := false;
      dataObject := StoredRecords(storage);
      isTest := true;
      dataDoneLoading := true;
      dataLoaded := true;
    }

    /** `loadOntologyWaiting`: push the ontology loading screen. */
    method LoadOntologyWaiting()
      modifies this`loadingScreens
      ensures loadingScreens == old(loadingScreens) + [OntologyScreen]
    {
      loadingScreens := loadingScreens + [OntologyScreen];
    }

    /** `loadDataWaiting`: push the data loading screen. */
    method LoadDataWaiting()
      modifies this`loadingScreens
      ensures loadingScreens == old(loadingScreens) + [DataScreen]
    {
      loadingScreens := loadingScreens + [DataScreen];
    }
  }

  /**
   * Offline, a new page reports a connection error and goes home without
   * requesting anything or reading the saved records; only the data flags
   * are cleared.
   */
  method OfflineLoad(p: Providers, storage: map<string, Stored>)
    returns (fetches: seq<string>, notices: seq<ErrorNotice>, dest: seq<Destination>, flags: SyncFlags)
    ensures fetches == [] && dest == [Home]
    ensures notices == [ErrorNotice("Connection", Str("Offline"))]
    ensures flags == p.flags.(dataSynced := false, dataLoaded := false, dataDoneLoading := false)
    ensures flags.ontologySynced == p.flags.ontologySynced && flags.ontologyLoaded == p.flags.ontologyLoaded
  {
    var c := new HierarchyController(false, p, storage);
    fetches, notices, dest, flags := c.requests, c.notices, c.navigation, c.Flags();
  }

  /** A page opened online in a fresh session: it has requested the ontology and nothing else. */
  method StartFresh(p: Providers, storage: map<string, Stored>) returns (c: HierarchyController)
    requires p.flags == AllClear
    ensures fresh(c) && c.Valid() && c.online && c.phase == WaitingForData
    ensures !c.isError && !c.isTest && c.navigation == [] && c.tiers == p.tiers && c.storage == storage
    ensures c.requests == [OntologyFile] && c.awaitingOntology
    ensures c.Flags() == SyncFlags(true, true, false, false, false, false)
  {
    c := new HierarchyController(true, p, storage);
  }

  /**
   * `loadAll` resuming on a page whose data is neither synced nor loaded:
   * every tier is requested, in order, and awaits exactly one response
   * under its own slot.
   */
  method ResumeUnsynced(c: HierarchyController)
    requires c.Valid() && c.phase == WaitingForData && !c.isError
    requires !c.dataSynced && !c.dataLoaded
    modifies c
    ensures c.Valid() && c.phase == Polling && c.tiers == old(c.tiers)
    ensures !c.isError && c.isTest == old(c.isTest) && c.navigation == old(c.navigation)
    ensures c.Flags() == old(c.Flags()).(dataSynced := true, dataLoaded := true)
    ensures |c.requests| == |old(c.requests)| + |c.tiers| && c.requests[..|old(c.requests)|] == old(c.requests)
    ensures forall ii :: 0 <= ii < |c.tiers| ==> c.requests[|old(c.requests)| + ii] == GetUri(DataRemote, c.tiers[ii].plural)
    ensures forall ii :: ii in c.awaitingTiers <==> 0 <= ii < |c.tiers|
    ensures forall ii :: 0 <= ii < |c.tiers| ==> c.awaitingTiers[ii] == c.tiers[ii].plural
  {
    var d0, f0 := c.Dispatched(), c.Flags();
    c.ResumeLoadAll();
    assert c.Flags() == f0.(dataSynced := true, dataLoaded := true);
    DispatchAll(DataRemote, d0, c.tiers, c.Dispatched());
  }

  /**
   * A page that has requested the ontology and no data gets the ontology,
   * then resumes `loadAll`: every tier is requested, in order, and awaits
   * exactly one response under its own slot.
   */
  method FetchAfterOntology(c: HierarchyController, result: seq<Tier>)
    requires c.Valid() && c.phase == WaitingForData && c.awaitingOntology && !c.isError
    requires !c.dataSynced && !c.dataLoaded
    modifies c
    ensures c.Valid() && c.phase == Polling && c.tiers == result
    ensures !c.isError && c.isTest == old(c.isTest) && c.navigation == old(c.navigation)
    ensures c.Flags() == old(c.Flags()).(ontologyDoneLoading := true, dataSynced := true, dataLoaded := true)
    ensures |c.requests| == |old(c.requests)| + |result| && c.requests[..|old(c.requests)|] == old(c.requests)
    ensures forall ii :: 0 <= ii < |result| ==> c.requests[|old(c.requests)| + ii] == GetUri(DataRemote, result[ii].plural)
    ensures forall ii :: ii in c.awaitingTiers <==> 0 <= ii < |result|
    ensures forall ii :: 0 <= ii < |result| ==> c.awaitingTiers[ii] == result[ii].plural
  {
    c.OntologyArrives(result);
    ResumeUnsynced(c);
  }

  /**
   * A load from a fresh session, up to the polling loops: the ontology is
   * requested and arrives, then every tier is requested and awaited, each
   * under its own slot.
   */
  method LoadFromScratch(p: Providers, storage: map<string, Stored>, result: seq<Tier>)
    returns (c: HierarchyController)
    requires p.flags == AllClear
    ensures fresh(c) && c.Valid() && c.online && c.phase == Polling
    ensures !c.isError && !c.isTest && c.navigation == [] && c.tiers == result
    ensures c.Flags() == SyncFlags(true, true, true, true, true, false)
    ensures forall ii :: ii in c.awaitingTiers <==> 0 <= ii < |result|
    ensures forall ii :: 0 <= ii < |result| ==> c.awaitingTiers[ii] == result[ii].plural
  {
    c := StartFresh(p, storage);
    FetchAfterOntology(c, result);
  }

  /**
   * A fresh session in which `loadAll` resumes before the ontology has
   * arrived: `getOntology` returns once its request is sent, so `getAllData`
   * walks the still empty tier list, sends nothing and yet marks the data
   * synced and loaded. When the ontology arrives nothing requests its tiers
   * and no response is outstanding that could mark the data done, so the
   * page stays behind its loading screens.
   */
  method FetchBeforeOntology(p: Providers, storage: map<string, Stored>, result: seq<Tier>)
    returns (sent: seq<string>, awaited: bool, marked: bool, ontologyDone: bool, dataDone: bool, failed: bool)
    requires p.flags == AllClear && p.tiers == []
    ensures sent == [OntologyFile]
    ensures !awaited && marked && ontologyDone && !dataDone && !failed
  {
    var c := StartFresh(p, storage);
    c.ResumeLoadAll();
    c.OntologyArrives(result);
    sent := c.requests;
    awaited := c.awaitingOntology || c.awaitingTiers != map[] || c.awaitingLocalData;
    marked := c.dataSynced && c.dataLoaded;
    ontologyDone, dataDone, failed := c.ontologyDoneLoading, c.dataDoneLoading, c.isError;
  }

  /**
   * A first load from scratch: once the first tier has answered, the data
   * already counts as done although every other tier is still outstanding,
   * and the load ends on the hierarchy page at the first tier.
   */
  method FirstTierReplyMarksDataDone(p: Providers, storage: map<string, Stored>, result: seq<Tier>, data: TierData)
    returns (done: bool, outstanding: set<int>, dest: seq<Destination>)
    requires p.flags == AllClear && |result| >= 1
    ensures done
    ensures forall ii :: ii in outstanding <==> 1 <= ii < |result|
    ensures dest == [HierarchyRoot("NRDC", result[0].plural)]
  {
    var c := LoadFromScratch(p, storage, result);
    c.TierArrives(0, data);
    done, outstanding := c.dataDoneLoading, c.awaitingTiers.Keys;
    c.FinishLoadAll();
    dest := c.navigation;
  }

  /**
   * An ontology error that arrives after `getAllData` has run clears every
   * flag, so the next page requests the ontology again and, once it has
   * arrived, the records of every tier.
   */
  method RetryAfterOntologyError(p: Providers, storage: map<string, Stored>, result: seq<Tier>, status: Value)
    returns (first: seq<string>, second: seq<string>, dest: seq<Destination>)
    requires p.flags == AllClear && p.tiers == []
    ensures first == [OntologyFile] && dest == [Home]
    ensures |second| == 1 + |result| && second[0] == OntologyFile
    ensures forall ii :: 0 <= ii < |result| ==> second[1 + ii] == GetUri(DataRemote, result[ii].plural)
  {
    var c := StartFresh(p, storage);
    c.ResumeLoadAll();
    c.OntologyFails(status);
    first, dest := c.requests, c.navigation;
    var again := StartFresh(c.ProviderState(), c.storage);
    FetchAfterOntology(again, result);
    second := again.requests;
  }

  /**
   * In a fresh session the ontology request fails before `loadAll` resumes;
   * then `loadAll` resumes, as written or (`intended`) as corrected.
   */
  method EarlyOntologyError(p: Providers, storage: map<string, Stored>, status: Value, intended: bool)
    returns (c: HierarchyController)
    requires p.flags == AllClear && p.tiers == []
    ensures fresh(c) && c.tiers == [] && c.storage == storage
    ensures c.Flags() == if intended then AllClear else AllClear.(dataSynced := true, dataLoaded := true)
  {
    c := StartFresh(p, storage);
    c.OntologyFails(status);
    if intended {
      c.ResumeLoadAllUnlessFailed();
    } else {
      c.ResumeLoadAll();
    }
  }

  /**
   * An ontology error that arrives while `loadAll` still waits for the data
   * loading screen, in a fresh session: `loadAll` resumes anyway and its
   * `getAllData` marks the data synced and loaded again, after the error
   * cleared them. The next page requests the ontology but never the data,
   * and nothing it waits for can mark the data done, so its load can only
   * end in another error.
   */
  method RetryAfterEarlyOntologyError(p: Providers, storage: map<string, Stored>, status: Value, result: seq<Tier>)
    returns (second: seq<string>, dataAwaited: bool, dataDone: bool, failed: bool)
    requires p.flags == AllClear && p.tiers == []
    ensures second == [OntologyFile]
    ensures !dataAwaited && !dataDone && !failed
  {
    var c := EarlyOntologyError(p, storage, status, false);
    var again := new HierarchyController(true, c.ProviderState(), c.storage);
    again.OntologyArrives(result);
    again.ResumeLoadAll();
    second := again.requests;
    dataAwaited := again.awaitingTiers != map[] || again.awaitingLocalData;
    dataDone, failed := again.dataDoneLoading, again.isError;
  }

  /**
   * The same schedule with `loadAll` stopping after a failed ontology load,
   * as its `try`/`catch` around `getOntology` intends: the next page requests
   * the ontology and then the records of every tier. (That page has no error
   * when it resumes, where the corrected and the written resumption agree.)
   */
  method RetryAfterEarlyOntologyErrorIntended(p: Providers, storage: map<string, Stored>, status: Value, result: seq<Tier>)
    returns (second: seq<string>, outstanding: set<int>)
    requires p.flags == AllClear && p.tiers == []
    ensures |second| == 1 + |result| && second[0] == OntologyFile
    ensures forall ii :: 0 <= ii < |result| ==> second[1 + ii] == GetUri(DataRemote, result[ii].plural)
    ensures forall ii :: ii in outstanding <==> 0 <= ii < |result|
  {
    var c := EarlyOntologyError(p, storage, status, true);
    var again := StartFresh(c.ProviderState(), c.storage);
    FetchAfterOntology(again, result);
    second, outstanding := again.requests, again.awaitingTiers.Keys;
  }

  /**
   * A tier error clears only the data flags (unless the tier's label is
   * the ontology page's name): the next page does not request the ontology
   * again, but requests the records of every tier again.
   */
  method RetryAfterTierError(p: Providers, storage: map<string, Stored>, result: seq<Tier>, status: Value)
    returns (ontologyAgain: bool, second: seq<string>)
    requires p.flags == AllClear && |result| >= 1 && result[0].plural != OntologyPage
    ensures !ontologyAgain
    ensures |second| == |result|
    ensures forall ii :: 0 <= ii < |result| ==> second[ii] == GetUri(DataRemote, result[ii].plural)
  {
    var c := LoadFromScratch(p, storage, result);
    c.TierFails(0, status);
    assert c.ontologySynced && c.ontologyLoaded && !c.dataSynced && !c.dataLoaded;
    var again := new HierarchyController(true, c.ProviderState(), c.storage);
    ontologyAgain := again.awaitingOntology;
    var d1 := again.Dispatched();
    again.ResumeLoadAll();
    DispatchSends(DataRemote, d1, result, |result|);
    second := again.requests;
  }

  /**
   * Saved records: with the ontology and the data synced but the data not
   * loaded, a page requests nothing, takes the saved records and opens the
   * hierarchy page in test mode.
   */
  method CachedLoad(p: Providers, storage: map<string, Stored>)
    returns (fetches: seq<string>, records: map<int, TierData>, dest: seq<Destination>)
    requires p.flags.ontologySynced && p.flags.ontologyDoneLoading
    requires p.flags.dataSynced && !p.flags.dataLoaded
    requires p.tiers != []
    ensures fetches == [] && records == StoredRecords(storage)
    ensures dest == [HierarchyRoot("TEST", p.tiers[0].plural)]
  {
    var c := new HierarchyController(true, p, storage);
    c.ResumeLoadAll();
    c.LocalDataArrives();
    c.FinishLoadAll();
    fetches, records, dest := c.requests, c.dataObject, c.navigation;
  }
}
