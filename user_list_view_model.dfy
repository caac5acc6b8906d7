/**
 * The user-list view model: it owns a pagination manager of users, decides
 * when to fetch (the initial load, and when the last row is displayed) and
 * reports to its delegate. Dispatching to the network queue and back to the
 * main queue is modelled as immediate, sequential execution, and the network
 * delivers one page outcome, given as a parameter.
 */
module UserListViewModels {
  import opened Wrappers
  import opened APIAgent
  import Endpoint
  import opened Pagination
  import opened UserEndpoints

  datatype User = User(id: int, name: string, email: string, gender: string, status: string)

  /** The calls the view model makes on its delegate. */
  datatype Notification = DidReceiveUsers | DidFailWithError(error: ErrorResponse) | LoadingStateChanged(isLoading: bool)

  /**
   * The delegate calls made for what the manager hands to the completion
   * (`None`: the completion is not invoked): for the initial fetch the end of
   * loading, then the news itself.
   */
  function DeliveryNotifications(isInitial: bool, delivered: Option<Result<seq<User>, ErrorResponse>>): seq<Notification> {
    match delivered
    case None => []
    case Some(Success(_)) => (if isInitial then [LoadingStateChanged(false)] else []) + [DidReceiveUsers]
    case Some(Failure(error)) => (if isInitial then [LoadingStateChanged(false)] else []) + [DidFailWithError(error)]
  }

  /**
   * The delegate calls made once the manager's completion runs on `outcome`.
   * The list the manager delivers on success does not affect them. An
   * invoked completion makes exactly one result call, last, preceded only by
   * the end of loading of an initial fetch; it reports success exactly for a
   * delivered page and carries a failure's error unchanged.
   */
  function CompletionNotifications(isInitial: bool, outcome: CustomResult<seq<User>>): (r: seq<Notification>)
    ensures r == [] <==> outcome.Success? && outcome.value.None?
    ensures r != [] ==> |r| == (if isInitial then 2 else 1)
    ensures r != [] && isInitial ==> r[0] == LoadingStateChanged(false)
    ensures r != [] ==> !r[|r| - 1].LoadingStateChanged?
    ensures r != [] ==> (r[|r| - 1] == DidReceiveUsers <==> outcome.Success?)
    ensures outcome.Failure? ==> r[|r| - 1] == DidFailWithError(outcome.error)
  {
    DeliveryNotifications(isInitial, Delivered([], outcome))
  }

  /** Reacting to what the manager delivers is reacting to the page outcome. */
  lemma DeliveryFollowsOutcome(isInitial: bool, items: seq<User>, outcome: CustomResult<seq<User>>)
    ensures DeliveryNotifications(isInitial, Delivered(items, outcome)) == CompletionNotifications(isInitial, outcome)
  {
  }

  /** All delegate calls of one admitted fetch. */
  function FetchNotifications(isInitial: bool, outcome: CustomResult<seq<User>>): seq<Notification> {
    (if isInitial then [LoadingStateChanged(true)] else []) + CompletionNotifications(isInitial, outcome)
  }

  /** Loading-state notifications come only from the initial fetch: true first, false last. */
  lemma LoadingNotificationsOnlyInitially(isInitial: bool, outcome: CustomResult<seq<User>>)
    ensures !isInitial ==> forall k :: 0 <= k < |FetchNotifications(isInitial, outcome)| ==>
      !FetchNotifications(isInitial, outcome)[k].LoadingStateChanged?
    ensures isInitial ==> FetchNotifications(isInitial, outcome)[0] == LoadingStateChanged(true)
    ensures isInitial && !(outcome.Success? && outcome.value.None?) ==>
      |FetchNotifications(isInitial, outcome)| == 3
      && FetchNotifications(isInitial, outcome)[1] == LoadingStateChanged(false)
  {
  }

  /** The endpoint factory the view model hands to the manager. */
  function UserPage(page: int): (r: Endpoint.EndPoint)
    ensures r.path == "public/v2/users" && r.httpMethod == Endpoint.Get
    ensures r.parameters == Some([("page", Endpoint.Integer(page))])
    ensures r.task == Endpoint.RequestParameters && r.parametersEncoding == Some(Endpoint.Url)
  {
    GetUsersDescriptor(page);
    GetUsers(page).AsEndPoint()
  }

  class UserListViewModel {
    const paginationManager: PaginationManager<User>
    /** The delegate calls made so far, in order. */
    var notifications: seq<Notification>

    ghost predicate Valid()
      reads this, paginationManager
    {
      paginationManager.Valid()
    }

    constructor ()
      ensures Valid() && fresh(paginationManager)
      ensures paginationManager.state == Initial && paginationManager.items == [] && notifications == []
    {
      paginationManager := new PaginationManager<User>(20);
      notifications := [];
    }

    /** The users shown: exactly the manager's accumulated items. */
    function Users(): (r: seq<User>)
      reads this, paginationManager
      requires Valid()
      ensures r == Flatten(paginationManager.pages)
      ensures |r| == paginationManager.state.itemCount
    {
      paginationManager.CurrentItems()
    }

    /** No users exactly when the manager holds no items. */
    function IsEmpty(): (r: bool)
      reads this, paginationManager
      requires Valid()
      ensures r <==> paginationManager.state.itemCount == 0
    {
      |paginationManager.CurrentItems()| == 0
    }

    /**
     * Fetches the next page unless the manager cannot load more. When it
     * fetches, `request` is the endpoint of the current page, the manager
     * merges or settles `outcome`, and the delegate is told.
     */
    method FetchNextPage(isInitial: bool, outcome: CustomResult<seq<User>>) returns (request: Option<Endpoint.EndPoint>)
      requires Valid()
      modifies this, paginationManager
      ensures Valid()
      ensures request.Some? <==> !old(paginationManager.state.isLoading)
      ensures request.Some? ==> request.value == UserPage(old(paginationManager.state.currentPage))
      ensures paginationManager.state ==
        if request.Some? then SettledState(Started(old(paginationManager.state)), outcome) else old(paginationManager.state)
      ensures paginationManager.items ==
        if request.Some? then SettledItems(old(paginationManager.items), outcome) else old(paginationManager.items)
      ensures paginationManager.pages ==
        if request.Some? then SettledPages(old(paginationManager.pages), outcome) else old(paginationManager.pages)
      ensures notifications ==
        old(notifications) + if request.Some? then FetchNotifications(isInitial, outcome) else []
    {
      if !paginationManager.CanLoadMore() {
        return None;
      }
      var endpoint := Fetch(isInitial, outcome);
      request := Some(endpoint);
    }

    /**
     * The work dispatched once the guard let a fetch through: announce the
     * initial load, request the current page, and let the manager's
     * completion settle `outcome` and tell the delegate.
     */
    method Fetch(isInitial: bool, outcome: CustomResult<seq<User>>) returns (endpoint: Endpoint.EndPoint)
      requires Valid() && !paginationManager.state.isLoading
      modifies this, paginationManager
      ensures Valid()
      ensures endpoint == UserPage(old(paginationManager.state.currentPage))
      ensures paginationManager.state == SettledState(Started(old(paginationManager.state)), outcome)
      ensures paginationManager.items == SettledItems(old(paginationManager.items), outcome)
      ensures paginationManager.pages == SettledPages(old(paginationManager.pages), outcome)
      ensures notifications == old(notifications) + FetchNotifications(isInitial, outcome)
    {
      if isInitial {
        notifications := notifications + [LoadingStateChanged(true)];
      }
      var request := paginationManager.LoadNextPage(UserPage);
      endpoint := request.value;
      var delivered := paginationManager.Complete(outcome);
      Notify(isInitial, delivered);
      DeliveryFollowsOutcome(isInitial, paginationManager.items, outcome);
    }

    /** The manager's completion: tells the delegate what was delivered. */
    method Notify(isInitial: bool, delivered: Option<Result<seq<User>, ErrorResponse>>)
      modifies this
      ensures notifications == old(notifications) + DeliveryNotifications(isInitial, delivered)
    {
      if delivered.Some? {
        if isInitial {
          notifications := notifications + [LoadingStateChanged(false)];
        }
        match delivered.value {
          case Success(_) =>
            notifications := notifications + [DidReceiveUsers];
          case Failure(error) =>
            notifications := notifications + [DidFailWithError(error)];
        }
      }
    }

    /**
     * Resets the manager and fetches the first page: page 1 is requested,
     * earlier users are gone, and the manager is idle again afterwards.
     */
    method FetchInitialData(outcome: CustomResult<seq<User>>) returns (request: Option<Endpoint.EndPoint>)
      requires Valid()
      modifies this, paginationManager
      ensures Valid()
      ensures request == Some(UserPage(1))
      ensures paginationManager.state == SettledState(Started(Initial), outcome)
      ensures paginationManager.items == SettledItems([], outcome)
      ensures paginationManager.pages == SettledPages([], outcome)
      ensures notifications == old(notifications) + FetchNotifications(true, outcome)
      ensures !paginationManager.state.isLoading
      ensures outcome.Success? && outcome.value.Some? ==>
        paginationManager.items == outcome.value.value && paginationManager.state.currentPage == 2
      ensures !(outcome.Success? && outcome.value.Some?) ==>
        paginationManager.items == [] && paginationManager.state.currentPage == 1
    {
      paginationManager.Reset();
      request := FetchNextPage(true, outcome);
    }

    /**
     * Fetches more only when the displayed row is the last one (and the
     * manager can load more); otherwise nothing changes.
     */
    method LoadMoreIfNeeded(row: int, outcome: CustomResult<seq<User>>) returns (request: Option<Endpoint.EndPoint>)
      requires Valid()
      modifies this, paginationManager
      ensures Valid()
      ensures request.Some? <==> row == old(|Users()|) - 1 && !old(paginationManager.state.isLoading)
      ensures request.Some? ==> request.value == UserPage(old(paginationManager.state.currentPage))
      ensures paginationManager.state ==
        if request.Some? then SettledState(Started(old(paginationManager.state)), outcome) else old(paginationManager.state)
      ensures paginationManager.items ==
        if request.Some? then SettledItems(old(paginationManager.items), outcome) else old(paginationManager.items)
      ensures paginationManager.pages ==
        if request.Some? then SettledPages(old(paginationManager.pages), outcome) else old(paginationManager.pages)
      ensures notifications ==
        old(notifications) + if request.Some? then FetchNotifications(false, outcome) else []
    {
      if row != |Users()| - 1 {
        return None;
      }
      request := FetchNextPage(false, outcome);
    }
  }
}
