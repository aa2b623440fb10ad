/**
 * The previews screen: the component state and the handlers that move it.
 *
 * Each handler and each engine callback is one atomic method; the caller
 * (the user, or the update engine) chooses their order. The update engine is
 * seen only through a ghost log of the `sync` calls the screen issues and the
 * two callbacks `OnSyncStatus` and `OnDownloadProgress` that it may invoke at
 * any time once a sync has been issued. The catalog request goes through
 * `Previews.FetchDeployments`, whose transport outcome is a parameter.
 */
module Screen {
  import opened JsValues
  import opened Previews
  import opened DeploymentSearch
  import PreviewCard

  datatype InstallMode = Immediate | OnNextRestart | OnNextResume | OnNextSuspend

  /** One `codePush.sync` call: the deployment it targets and the install mode asked for. */
  datatype SyncCall = SyncCall(deploymentKey: string, installMode: InstallMode)

  /** The statuses the update engine reports to a sync's status callback. */
  datatype SyncStatus =
    | UpToDate | UpdateInstalled | UpdateIgnored | UnknownError | SyncInProgress
    | CheckingForUpdate | AwaitingUserAction | DownloadingPackage | InstallingUpdate

  /** What `codePush.getUpdateMetadata()` gave: an update's metadata, nothing, or a rejection. */
  datatype MetadataQuery = Metadata(deploymentKey: string) | NoMetadata | QueryFailed

  /** The statuses on which the status callback clears `isSwitching`. */
  predicate EndsSwitching(status: SyncStatus) {
    status == UpdateInstalled || status == UpToDate || status == UnknownError
  }

  /** `Platform.OS === 'ios' ? 'ios' : 'android'`. */
  function PlatformOf(hostOs: string): (p: Platform)
    ensures p == IOS <==> hostOs == "ios"
  {
    if hostOs == "ios" then IOS else Android
  }

  /** The set of expanded card ids after `toggleAccordion(id)`. */
  function Toggled(expanded: set<string>, id: string): set<string> {
    if id in expanded then expanded - {id} else expanded + {id}
  }

  /** Toggling flips exactly the membership of `id`. */
  lemma ToggledFlipsOnlyId(expanded: set<string>, id: string)
    ensures id in Toggled(expanded, id) <==> id !in expanded
    ensures forall other :: other != id ==> (other in Toggled(expanded, id) <==> other in expanded)
  {
  }

  /** Toggling the same id twice restores the original set. */
  lemma ToggleTwiceRestores(expanded: set<string>, id: string)
    ensures Toggled(Toggled(expanded, id), id) == expanded
  {
  }

  class PreviewsScreen {
    var deployments: seq<Deployment>
    var loading: bool
    var error: Option<string>
    var searchQuery: string
    var expandedCards: set<string>
    var currentDeploymentKey: Option<string>
    var isSwitching: bool
    var downloadProgress: real
    var showConfirmation: bool
    var selectedDeploymentKey: Option<string>
    /** Every `codePush.sync` call issued so far, oldest first. */
    ghost var syncCalls: seq<SyncCall>
    /** Every catalog request issued so far, oldest first. */
    ghost var catalogRequests: seq<ApiRequest>

    /**
     * What the handlers keep true: a shown error is never empty, the
     * confirmation dialog only opens with a selected key, the progress dialog
     * only shows once a sync was issued, every sync asks for an immediate
     * install of a non-empty key, and progress is never negative.
     */
    ghost predicate Valid()
      reads this
    {
      && (error.Some? ==> error.value != "")
      && (showConfirmation ==> selectedDeploymentKey.Some?)
      && (isSwitching ==> syncCalls != [])
      && (forall i :: 0 <= i < |syncCalls| ==>
            syncCalls[i].installMode == Immediate && syncCalls[i].deploymentKey != "")
      && downloadProgress >= 0.0
    }

    /** The initial `useState` values. */
    constructor ()
      ensures Valid()
      ensures deployments == [] && loading && error == None
      ensures searchQuery == "" && expandedCards == {} && currentDeploymentKey == None
      ensures !isSwitching && downloadProgress == 0.0
      ensures !showConfirmation && selectedDeploymentKey == None
      ensures syncCalls == [] && catalogRequests == []
    {
      deployments, loading, error := [], true, None;
      searchQuery, expandedCards, currentDeploymentKey := "", {}, None;
      isSwitching, downloadProgress := false, 0.0;
      showConfirmation, selectedDeploymentKey := false, None;
      syncCalls, catalogRequests := [], [];
    }

    /** `handleFetchCurrentDeployment`: the key changes only when metadata came back. */
    method HandleFetchCurrentDeployment(query: MetadataQuery)
      requires Valid()
      modifies this`currentDeploymentKey
      ensures Valid()
      ensures query.Metadata? ==> currentDeploymentKey == Some(query.deploymentKey)
      ensures !query.Metadata? ==> currentDeploymentKey == old(currentDeploymentKey)
    {
      if query.Metadata? {
        currentDeploymentKey := Some(query.deploymentKey);
      }
    }

    /**
     * `handleFetchDeployments`, given the host OS name and the transport
     * outcome of the catalog request. Success replaces the list and clears
     * the error; failure keeps the list and shows a non-empty message.
     */
    method HandleFetchDeployments(hostOs: string, reply: Reply)
      requires Valid()
      modifies this`loading, this`error, this`deployments, this`catalogRequests
      ensures Valid()
      ensures !loading
      ensures catalogRequests == old(catalogRequests) + [Post(DeploymentsListPath, PlatformOf(hostOs))]
      ensures var fetched := FetchDeployments(PlatformOf(hostOs), reply);
              && (fetched.result.Ok? ==> deployments == fetched.result.value && error == None)
              && (fetched.result.Err? ==>
                    deployments == old(deployments) && error == Some(fetched.result.error))
      ensures error.Some? ==> error.value != ""
    {
      loading := true;
      error := None;
      var platform := PlatformOf(hostOs);
      var fetched := FetchDeployments(platform, reply);
      catalogRequests := catalogRequests + fetched.requests;
      match fetched.result {
        case Ok(data) =>
          deployments := data;
        case Err(message) =>
          error := Some(Or(Some(message), FetchFailedMessage));
      }
      loading := false;
    }

    /** `handleSwitchDeployment(key)`: opens the confirmation for `key`; no sync is issued. */
    method HandleSwitchDeployment(deploymentKey: string)
      requires Valid()
      modifies this`selectedDeploymentKey, this`showConfirmation
      ensures Valid()
      ensures selectedDeploymentKey == Some(deploymentKey) && showConfirmation
      ensures isSwitching == old(isSwitching) && syncCalls == old(syncCalls)
    {
      selectedDeploymentKey := Some(deploymentKey);
      showConfirmation := true;
    }

    /**
     * `onConfirmSwitch`: without a (truthy) selected key nothing happens;
     * otherwise the dialog closes, the progress dialog opens at 0 and exactly
     * one immediate-install sync for the selected key is issued. The selected
     * key stays as it was, and nothing stops a second confirm while switching.
     */
    method OnConfirmSwitch()
      requires Valid()
      modifies this`showConfirmation, this`isSwitching, this`downloadProgress, this`syncCalls
      ensures Valid()
      ensures selectedDeploymentKey == old(selectedDeploymentKey)
      ensures !Truthy(selectedDeploymentKey) ==>
                && showConfirmation == old(showConfirmation) && isSwitching == old(isSwitching)
                && downloadProgress == old(downloadProgress) && syncCalls == old(syncCalls)
      ensures Truthy(selectedDeploymentKey) ==>
                && !showConfirmation && isSwitching && downloadProgress == 0.0
                && syncCalls == old(syncCalls) + [SyncCall(selectedDeploymentKey.value, Immediate)]
    {
      if !Truthy(selectedDeploymentKey) {
        return;
      }
      showConfirmation := false;
      isSwitching := true;
      downloadProgress := 0.0;
      syncCalls := syncCalls + [SyncCall(selectedDeploymentKey.value, Immediate)];
    }

    /** The status callback of a sync: a terminal status clears `isSwitching`, any other does nothing. */
    method OnSyncStatus(status: SyncStatus)
      requires Valid() && syncCalls != []
      modifies this`isSwitching
      ensures Valid()
      ensures EndsSwitching(status) ==> !isSwitching
      ensures !EndsSwitching(status) ==> isSwitching == old(isSwitching)
    {
      if status == UpdateInstalled {
        isSwitching := false;
      } else if status == UpToDate || status == UnknownError {
        isSwitching := false;
      }
    }

    /** The progress callback of a sync: the percentage received, unclamped. */
    method OnDownloadProgress(receivedBytes: nat, totalBytes: nat)
      requires Valid() && syncCalls != []
      requires totalBytes > 0
      modifies this`downloadProgress
      ensures Valid()
      ensures downloadProgress * (totalBytes as real) == (receivedBytes as real) * 100.0
    {
      downloadProgress := (receivedBytes as real / totalBytes as real) * 100.0;
    }

    /** `onCancelSwitch`: closes the dialog and forgets the selection; no sync is issued. */
    method OnCancelSwitch()
      requires Valid()
      modifies this`showConfirmation, this`selectedDeploymentKey
      ensures Valid()
      ensures !showConfirmation && selectedDeploymentKey == None
      ensures isSwitching == old(isSwitching) && downloadProgress == old(downloadProgress)
      ensures syncCalls == old(syncCalls)
    {
      showConfirmation := false;
      selectedDeploymentKey := None;
    }

    /** The search box's `onChangeText`. */
    method SetSearchQuery(query: string)
      requires Valid()
      modifies this`searchQuery
      ensures Valid()
      ensures searchQuery == query
    {
      searchQuery := query;
    }

    /** `toggleAccordion(id)`: copies the set and adds or deletes `id` in the copy. */
    method ToggleAccordion(deploymentId: string)
      requires Valid()
      modifies this`expandedCards
      ensures Valid()
      ensures expandedCards == Toggled(old(expandedCards), deploymentId)
    {
      var newSet := expandedCards;
      if deploymentId in newSet {
        newSet := newSet - {deploymentId};
      } else {
        newSet := newSet + {deploymentId};
      }
      expandedCards := newSet;
    }

    /**
     * Pressing a card's switch button: the card hands its key to
     * `HandleSwitchDeployment`. Cards are rendered only for the filtered list,
     * and only once the catalog has loaded without error; only a rendered
     * button can be pressed, so the confirmation never opens for the active
     * deployment or for one with no package.
     */
    method PressSwitchOnCard(d: Deployment)
      requires Valid()
      requires !loading && error.None? && d in FilteredDeployments()
      requires PreviewCard.ShowsSwitchButton(PreviewCard.Render(d, d.id in expandedCards, currentDeploymentKey))
      modifies this`selectedDeploymentKey, this`showConfirmation
      ensures Valid()
      ensures selectedDeploymentKey == Some(d.key) && showConfirmation
      ensures d in deployments && d.package.Some? && currentDeploymentKey != Some(d.key)
      ensures isSwitching == old(isSwitching) && syncCalls == old(syncCalls)
    {
      var card := PreviewCard.Render(d, d.id in expandedCards, currentDeploymentKey);
      HandleSwitchDeployment(card.body.switchKey.value);
    }

    /** The list the screen renders: deployments from the catalog, never more of them. */
    function FilteredDeployments(): (r: seq<Deployment>)
      reads this
      ensures |r| <= |deployments|
      ensures forall d :: d in r ==> d in deployments
    {
      FilterDeployments(deployments, searchQuery)
    }
  }

  /**
   * Confirming a switch to "k1", receiving half of the bytes and then
   * UPDATE_INSTALLED: the progress dialog shows 50 and then closes, after one
   * immediate sync for "k1".
   */
  method SwitchScenario() returns (progressSeen: real, switchingAfterInstall: bool, ghost syncCount: nat)
    ensures progressSeen == 50.0 && !switchingAfterInstall && syncCount == 1
  {
    var screen := new PreviewsScreen();
    screen.HandleSwitchDeployment("k1");
    screen.OnConfirmSwitch();
    screen.OnDownloadProgress(50, 100);
    progressSeen := screen.downloadProgress;
    screen.OnSyncStatus(UpdateInstalled);
    switchingAfterInstall := screen.isSwitching;
    syncCount := |screen.syncCalls|;
  }

  /**
   * There is no re-entrancy guard: a second confirm while the first sync is
   * still running issues a second sync and resets the progress to 0.
   */
  method DoubleConfirmScenario() returns (progressAfterSecondConfirm: real, switching: bool, ghost syncCount: nat)
    ensures progressAfterSecondConfirm == 0.0 && switching && syncCount == 2
  {
    var screen := new PreviewsScreen();
    screen.HandleSwitchDeployment("k1");
    screen.OnConfirmSwitch();
    screen.OnDownloadProgress(30, 100);
    screen.OnConfirmSwitch();
    progressAfterSecondConfirm := screen.downloadProgress;
    switching := screen.isSwitching;
    syncCount := |screen.syncCalls|;
  }

  /** Cancelling leaves nothing selected, so a confirm afterwards issues no sync. */
  method CancelThenConfirmScenario() returns (switching: bool, ghost syncCount: nat)
    ensures !switching && syncCount == 0
  {
    var screen := new PreviewsScreen();
    screen.HandleSwitchDeployment("k1");
    screen.OnCancelSwitch();
    screen.OnConfirmSwitch();
    switching := screen.isSwitching;
    syncCount := |screen.syncCalls|;
  }
}
