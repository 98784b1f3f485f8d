/** The watchlists of `src/components/Watchlist.tsx`. The database calls of
    each handler are inputs here (the error a call reports, or the row it
    returns), the quote lookup is a function from symbol to quote, and the
    component's `watchlists` state is replaced only once every remote call
    on the way has succeeded. */
module Watchlists {
  import opened Wrappers
  import opened Text
  import opened Filters
  import opened JsonValues
  import opened Quotes

  datatype WatchlistItem = WatchlistItem(id: string, symbol: string, initialPrice: real,
                                         currentPrice: Option<real>, change: Option<real>,
                                         changePercent: Option<Json>)

  datatype Watchlist = Watchlist(id: string, name: string, items: seq<WatchlistItem>)

  /** A row of the `watchlists` table, before its items are attached. */
  datatype WatchlistRow = WatchlistRow(id: string, name: string)

  /** An error reported by the database client: its code, its message and
      whether it is the client's authentication error. */
  datatype DbError = DbError(code: string, message: string, isAuthError: bool)

  /** The toast a handler ends with. */
  datatype Notice = Done(text: string) | Failed(text: string)

  /** The write a handler sends to the database. */
  datatype DbCall =
    | InsertWatchlist(name: string, userId: string)
    | InsertItem(watchlistId: string, symbol: string, initialPrice: real)
    | DeleteItem(itemId: string)
    | DeleteList(watchlistId: string)
    | UpdateName(watchlistId: string, newName: string)

  /** What one handler does: the new list, its toast and the write it sent. */
  datatype Step = Step(lists: seq<Watchlist>, notice: Notice, sent: Option<DbCall>)

  /** `error.message || fallback`. */
  function MessageOr(e: DbError, fallback: string): (r: string)
    ensures r != [] <== fallback != []
    ensures e.message != [] ==> r == e.message
  {
    if e.message == [] then fallback else e.message
  }

  // ---------------------------------------------------------------------
  // The list transforms
  // ---------------------------------------------------------------------

  predicate OtherItem(item: WatchlistItem, itemId: string) {
    item.id != itemId
  }

  /** `watchlists.map(w => ({ ...w, items: w.items.filter(item => item.id !== itemId) }))`. */
  function WithoutItem(lists: seq<Watchlist>, itemId: string): seq<Watchlist> {
    Map(lists, (w: Watchlist) => w.(items := Filter(w.items, it => OtherItem(it, itemId))))
  }

  predicate OtherList(w: Watchlist, watchlistId: string) {
    w.id != watchlistId
  }

  /** `watchlists.filter(w => w.id !== watchlistId)`. */
  function WithoutWatchlist(lists: seq<Watchlist>, watchlistId: string): seq<Watchlist> {
    Filter(lists, w => OtherList(w, watchlistId))
  }

  /** `watchlists.map(w => w.id === watchlistId ? { ...w, name } : w)`. */
  function Renamed(lists: seq<Watchlist>, watchlistId: string, name: string): seq<Watchlist> {
    Map(lists, (w: Watchlist) => if w.id == watchlistId then w.(name := name) else w)
  }

  /** One item of `refreshPrices`: the quote's price, change and change
      percent, or the item as it was when no usable quote came back. */
  function WithQuote(item: WatchlistItem, quote: Option<Quote>): WatchlistItem {
    match quote
    case None => item
    case Some(q) => item.(currentPrice := Some(q.price), change := Some(q.change),
                          changePercent := Some(q.changePercent))
  }

  /** The list `refreshPrices` stores; `quoteOf(symbol)` is `None` when
      `getStockQuote` throws or returns no numeric price. */
  function RefreshedLists(lists: seq<Watchlist>, quoteOf: string -> Option<Quote>): seq<Watchlist> {
    Map(lists, (w: Watchlist) => w.(items := RefreshedItems(w.items, quoteOf)))
  }

  function RefreshedItems(items: seq<WatchlistItem>, quoteOf: string -> Option<Quote>): seq<WatchlistItem> {
    Map(items, (it: WatchlistItem) => WithQuote(it, quoteOf(it.symbol)))
  }

  /** A watchlist row with its items attached: the items the query returned
      (`items || []`), or none when the item query failed. */
  function WithItems(row: WatchlistRow, fetched: Result<Option<seq<WatchlistItem>>, DbError>): Watchlist {
    Watchlist(row.id, row.name, if fetched.Success? then fetched.value.GetOr([]) else [])
  }

  function Loaded(rows: seq<WatchlistRow>, itemsOf: string -> Result<Option<seq<WatchlistItem>>, DbError>): seq<Watchlist> {
    Map(rows, (row: WatchlistRow) => WithItems(row, itemsOf(row.id)))
  }

  // ---------------------------------------------------------------------
  // Properties of the transforms
  // ---------------------------------------------------------------------

  /** Removing an item touches only item lists: every watchlist stays, in
      order, with its id and name, and loses exactly the items with that id,
      the others staying in order, each as often as before. */
  lemma WithoutItemSpec(lists: seq<Watchlist>, itemId: string)
    ensures var r := WithoutItem(lists, itemId);
      && |r| == |lists|
      && forall i :: 0 <= i < |lists| ==>
           && r[i].id == lists[i].id && r[i].name == lists[i].name
           && IsSubsequence(r[i].items, lists[i].items)
           && (forall j :: 0 <= j < |r[i].items| ==> r[i].items[j].id != itemId)
           && (forall it: WatchlistItem :: it.id != itemId ==> multiset(r[i].items)[it] == multiset(lists[i].items)[it])
  {
    var r := WithoutItem(lists, itemId);
    forall i | 0 <= i < |lists|
      ensures IsSubsequence(r[i].items, lists[i].items)
      ensures forall j :: 0 <= j < |r[i].items| ==> r[i].items[j].id != itemId
      ensures forall it: WatchlistItem :: it.id != itemId ==> multiset(r[i].items)[it] == multiset(lists[i].items)[it]
    {
      var keep := it => OtherItem(it, itemId);
      assert r[i].items == Filter(lists[i].items, keep);
      FilterIsSubsequence(lists[i].items, keep);
      FilterCounts(lists[i].items, keep);
      FilterMembers(lists[i].items, keep);
      assert forall j :: 0 <= j < |r[i].items| ==> r[i].items[j] in r[i].items;
    }
  }

  /** Removing an id no item carries changes nothing. */
  lemma WithoutAbsentItem(lists: seq<Watchlist>, itemId: string)
    requires forall i, j :: 0 <= i < |lists| && 0 <= j < |lists[i].items| ==> lists[i].items[j].id != itemId
    ensures WithoutItem(lists, itemId) == lists
  {
    var r := WithoutItem(lists, itemId);
    forall i | 0 <= i < |lists|
      ensures r[i] == lists[i]
    {
      FilterAll(lists[i].items, it => OtherItem(it, itemId));
    }
  }

  /** Deleting a watchlist removes exactly the watchlists with that id; the
      others stay in order, each as often as before. */
  lemma WithoutWatchlistSpec(lists: seq<Watchlist>, watchlistId: string)
    ensures var r := WithoutWatchlist(lists, watchlistId);
      && IsSubsequence(r, lists)
      && (forall i :: 0 <= i < |r| ==> r[i].id != watchlistId)
      && (forall w: Watchlist :: w.id != watchlistId ==> multiset(r)[w] == multiset(lists)[w])
  {
    var r := WithoutWatchlist(lists, watchlistId);
    var keep := w => OtherList(w, watchlistId);
    FilterIsSubsequence(lists, keep);
    FilterCounts(lists, keep);
    FilterMembers(lists, keep);
    assert forall i :: 0 <= i < |r| ==> r[i] in r;
  }

  /** Renaming gives the new name to the watchlists with that id and leaves
      every other watchlist, every id and every item list as it was. */
  lemma RenamedSpec(lists: seq<Watchlist>, watchlistId: string, name: string)
    ensures var r := Renamed(lists, watchlistId, name);
      && |r| == |lists|
      && forall i :: 0 <= i < |lists| ==>
           && r[i].(name := lists[i].name) == lists[i]
           && (lists[i].id == watchlistId ==> r[i].name == name)
           && (lists[i].id != watchlistId ==> r[i] == lists[i])
  {
  }

  /** Giving the same name twice is giving it once. */
  lemma RenamedIdempotent(lists: seq<Watchlist>, watchlistId: string, name: string)
    ensures Renamed(Renamed(lists, watchlistId, name), watchlistId, name) == Renamed(lists, watchlistId, name)
  {
  }

  /** A refresh keeps every watchlist and item in place; an item keeps its
      id, symbol and initial price, and either carries its quote's price,
      change and change percent or, when the quote failed, is unchanged. */
  lemma RefreshedListsSpec(lists: seq<Watchlist>, quoteOf: string -> Option<Quote>)
    ensures var r := RefreshedLists(lists, quoteOf);
      && |r| == |lists|
      && forall i :: 0 <= i < |lists| ==>
           && r[i].id == lists[i].id && r[i].name == lists[i].name
           && |r[i].items| == |lists[i].items|
           && forall j :: 0 <= j < |lists[i].items| ==>
                var before, after := lists[i].items[j], r[i].items[j];
                && after.id == before.id && after.symbol == before.symbol
                && after.initialPrice == before.initialPrice
                && (quoteOf(before.symbol).None? ==> after == before)
                && (quoteOf(before.symbol).Some? ==>
                      var q := quoteOf(before.symbol).value;
                      after.currentPrice == Some(q.price) && after.change == Some(q.change)
                      && after.changePercent == Some(q.changePercent))
  {
    var r := RefreshedLists(lists, quoteOf);
    forall i, j | 0 <= i < |lists| && 0 <= j < |lists[i].items|
      ensures r[i].items[j] == WithQuote(lists[i].items[j], quoteOf(lists[i].items[j].symbol))
    {
      assert r[i] == lists[i].(items := RefreshedItems(lists[i].items, quoteOf));
    }
  }

  /** Refreshing again with the same quotes changes nothing more. */
  lemma RefreshedListsIdempotent(lists: seq<Watchlist>, quoteOf: string -> Option<Quote>)
    ensures RefreshedLists(RefreshedLists(lists, quoteOf), quoteOf) == RefreshedLists(lists, quoteOf)
  {
    var once := RefreshedLists(lists, quoteOf);
    var twice := RefreshedLists(once, quoteOf);
    forall i | 0 <= i < |lists|
      ensures twice[i] == once[i]
    {
      var items := lists[i].items;
      assert once[i].items == RefreshedItems(items, quoteOf);
      assert twice[i].items == RefreshedItems(RefreshedItems(items, quoteOf), quoteOf);
      forall j | 0 <= j < |items|
        ensures twice[i].items[j] == once[i].items[j]
      {
        var q := quoteOf(items[j].symbol);
        assert once[i].items[j] == WithQuote(items[j], q);
        assert twice[i].items[j] == WithQuote(WithQuote(items[j], q), q);
      }
    }
  }

  /** A watchlist whose item query fails is still listed, in its place and
      under its id and name, with no items; one whose query succeeds carries
      exactly the items returned. */
  lemma LoadedSpec(rows: seq<WatchlistRow>, itemsOf: string -> Result<Option<seq<WatchlistItem>>, DbError>)
    ensures var r := Loaded(rows, itemsOf);
      && |r| == |rows|
      && forall i :: 0 <= i < |rows| ==>
           && r[i].id == rows[i].id && r[i].name == rows[i].name
           && (itemsOf(rows[i].id).Failure? ==> r[i].items == [])
           && (itemsOf(rows[i].id).Success? ==> r[i].items == itemsOf(rows[i].id).value.GetOr([]))
  {
    var r := Loaded(rows, itemsOf);
    forall i | 0 <= i < |rows|
      ensures r[i] == WithItems(rows[i], itemsOf(rows[i].id))
    {
    }
  }

  // ---------------------------------------------------------------------
  // The handlers
  // ---------------------------------------------------------------------

  /** `createWatchlist`: `user` is what `getUser` returned (its error, or the
      signed-in user's id if any) and `inserted` what the insert returned
      (its error, or the new row's id if a row came back). */
  function CreateOutcome(lists: seq<Watchlist>, name: string, user: Result<Option<string>, DbError>,
                         inserted: Result<Option<string>, DbError>): (r: Step)
    ensures r.notice.Failed? ==> r.lists == lists
  {
    if IsBlank(name) then Step(lists, Failed("Please enter a watchlist name"), None)
    else if user.Failure? then Step(lists, Failed(MessageOr(user.error, "Failed to create watchlist")), None)
    else if user.value.None? then Step(lists, Failed("You must be logged in to create a watchlist"), None)
    else
      var call := Some(InsertWatchlist(Trim(name), user.value.value));
      if inserted.Failure? then Step(lists, Failed(MessageOr(inserted.error, "Failed to create watchlist")), call)
      else if inserted.value.None? then Step(lists, Failed("No data returned from insert"), call)
      else Step(lists + [Watchlist(inserted.value.value, Trim(name), [])], Done("Watchlist created successfully"), call)
  }

  /** A blank name is refused before any call; a watchlist is created
      exactly when the user and the insert both come back, and it is one new
      watchlist at the end, under the trimmed (never blank) name, empty. */
  lemma CreateOutcomeSpec(lists: seq<Watchlist>, name: string, user: Result<Option<string>, DbError>,
                          inserted: Result<Option<string>, DbError>)
    ensures var r := CreateOutcome(lists, name, user, inserted);
      && (IsBlank(name) ==> r.sent == None && r.notice == Failed("Please enter a watchlist name"))
      && (r.notice.Done? <==> !IsBlank(name) && user.Success? && user.value.Some? && inserted.Success? && inserted.value.Some?)
      && (r.notice.Done? ==>
            && r.lists == lists + [Watchlist(inserted.value.value, Trim(name), [])]
            && !IsBlank(r.lists[|lists|].name))
      && (r.sent.Some? ==> r.sent == Some(InsertWatchlist(Trim(name), user.value.value)))
      && r.notice.text != []
  {
    if !IsBlank(name) {
      TrimmedNotBlank(name);
    }
  }

  /** `addToWatchlist`: the symbol is trimmed and upper-cased, its quote
      looked up, and an item inserted at the quote's price; `insertError` is
      what the insert reported and `reloaded` the list `loadWatchlists`
      stores afterwards. */
  function AddOutcome(lists: seq<Watchlist>, watchlistId: string, newSymbol: string,
                      quoteOf: string -> Option<Quote>, insertError: Option<DbError>,
                      reloaded: seq<Watchlist>): (r: Step)
    ensures r.notice.Failed? ==> r.lists == lists
  {
    if IsBlank(newSymbol) then Step(lists, Failed("Please enter a stock symbol"), None)
    else
      var symbol := ToUpper(Trim(newSymbol));
      match quoteOf(symbol)
      case None => Step(lists, Failed("Could not get valid price for stock"), None)
      case Some(quote) =>
        var call := Some(InsertItem(watchlistId, symbol, quote.price));
        match insertError
        case Some(e) =>
          if e.code == "23505" then Step(lists, Failed("This stock is already in your watchlist"), call)
          else Step(lists, Failed(MessageOr(e, "Failed to add stock to watchlist")), call)
        case None => Step(reloaded, Done(symbol + " added to watchlist"), call)
  }

  /** A blank symbol is refused before any call; the item sent carries the
      trimmed, upper-cased symbol and the quoted price; a duplicate
      (database code 23505) is reported as such; on success the notice
      names the symbol and the list is the reloaded one. */
  lemma AddOutcomeSpec(lists: seq<Watchlist>, watchlistId: string, newSymbol: string,
                       quoteOf: string -> Option<Quote>, insertError: Option<DbError>,
                       reloaded: seq<Watchlist>)
    ensures var r := AddOutcome(lists, watchlistId, newSymbol, quoteOf, insertError, reloaded);
      var symbol := ToUpper(Trim(newSymbol));
      && (IsBlank(newSymbol) ==> r.sent == None && r.notice == Failed("Please enter a stock symbol"))
      && (r.sent.Some? <==> !IsBlank(newSymbol) && quoteOf(symbol).Some?)
      && (r.sent.Some? ==> r.sent == Some(InsertItem(watchlistId, symbol, quoteOf(symbol).value.price)))
      && (r.sent.Some? && insertError.Some? && insertError.value.code == "23505" ==>
            r.notice == Failed("This stock is already in your watchlist"))
      && (r.notice.Done? <==> r.sent.Some? && insertError.None?)
      && (r.notice.Done? ==> r.lists == reloaded && r.notice.text == symbol + " added to watchlist")
      && r.notice.text != []
  {
  }

  /** The symbol stored is upper case whatever the case typed. */
  lemma AddIgnoresCase(lists: seq<Watchlist>, watchlistId: string, newSymbol: string,
                       quoteOf: string -> Option<Quote>, insertError: Option<DbError>,
                       reloaded: seq<Watchlist>)
    ensures var r := AddOutcome(lists, watchlistId, newSymbol, quoteOf, insertError, reloaded);
      r.sent.Some? ==> ToUpper(r.sent.value.symbol) == r.sent.value.symbol
  {
    var r := AddOutcome(lists, watchlistId, newSymbol, quoteOf, insertError, reloaded);
    if r.sent.Some? {
      AddOutcomeSpec(lists, watchlistId, newSymbol, quoteOf, insertError, reloaded);
      assert r.sent.value.symbol == ToUpper(Trim(newSymbol));
      ToUpperIdempotent(Trim(newSymbol));
    }
  }

  /** `getStockQuote` answers a failed fetch with the zero quote rather than
      throwing, and the zero quote passes the component's price check: the
      item is inserted at price 0 and a refresh shows a current price of 0. */
  lemma ZeroQuoteIsStored(lists: seq<Watchlist>, watchlistId: string, newSymbol: string,
                          quoteOf: string -> Option<Quote>, insertError: Option<DbError>,
                          reloaded: seq<Watchlist>)
    requires !IsBlank(newSymbol)
    requires forall s :: quoteOf(s) == Some(EmptyQuote)
    ensures AddOutcome(lists, watchlistId, newSymbol, quoteOf, insertError, reloaded).sent
         == Some(InsertItem(watchlistId, ToUpper(Trim(newSymbol)), 0.0))
    ensures forall i, j :: 0 <= i < |lists| && 0 <= j < |lists[i].items| ==>
      RefreshedLists(lists, quoteOf)[i].items[j].currentPrice == Some(0.0)
  {
    RefreshedListsSpec(lists, quoteOf);
  }

  /** `removeFromWatchlist`: `deleteError` is what the delete reported. */
  function RemoveOutcome(lists: seq<Watchlist>, itemId: string, deleteError: Option<DbError>): (r: Step)
    ensures r.sent == Some(DeleteItem(itemId))
    ensures r.notice.Failed? <==> deleteError.Some?
  {
    match deleteError
    case Some(e) => Step(lists, Failed(MessageOr(e, "Failed to remove stock from watchlist")), Some(DeleteItem(itemId)))
    case None => Step(WithoutItem(lists, itemId), Done("Stock removed from watchlist"), Some(DeleteItem(itemId)))
  }

  /** `deleteWatchlist`. */
  function DeleteOutcome(lists: seq<Watchlist>, watchlistId: string, deleteError: Option<DbError>): (r: Step)
    ensures r.sent == Some(DeleteList(watchlistId))
    ensures r.notice.Failed? <==> deleteError.Some?
  {
    match deleteError
    case Some(e) => Step(lists, Failed(MessageOr(e, "Failed to delete watchlist")), Some(DeleteList(watchlistId)))
    case None => Step(WithoutWatchlist(lists, watchlistId), Done("Watchlist deleted"), Some(DeleteList(watchlistId)))
  }

  /** `updateWatchlistName`. */
  function RenameOutcome(lists: seq<Watchlist>, watchlistId: string, newName: string, updateError: Option<DbError>): (r: Step)
    ensures r.notice.Failed? ==> r.lists == lists
  {
    if IsBlank(newName) then Step(lists, Failed("Watchlist name cannot be empty"), None)
    else
      var call := Some(UpdateName(watchlistId, Trim(newName)));
      match updateError
      case Some(e) => Step(lists, Failed(MessageOr(e, "Failed to update watchlist name")), call)
      case None => Step(Renamed(lists, watchlistId, Trim(newName)), Done("Watchlist name updated"), call)
  }

  /** The list changes only after the remote call reported no error: a
      failed removal, deletion or renaming leaves it as it was, and a
      successful one applies its transform. */
  lemma OutcomesChangeOnlyOnSuccess(lists: seq<Watchlist>, id: string, newName: string, error: Option<DbError>)
    ensures var r := RemoveOutcome(lists, id, error);
      r.lists == if error.Some? then lists else WithoutItem(lists, id)
    ensures var r := DeleteOutcome(lists, id, error);
      r.lists == if error.Some? then lists else WithoutWatchlist(lists, id)
    ensures var r := RenameOutcome(lists, id, newName, error);
      r.lists == if IsBlank(newName) || error.Some? then lists else Renamed(lists, id, Trim(newName))
  {
  }

  /** A blank new name is refused before any call; otherwise the trimmed
      name is sent, and on success it is the name of exactly the watchlists
      with that id. */
  lemma RenameOutcomeSpec(lists: seq<Watchlist>, watchlistId: string, newName: string, updateError: Option<DbError>)
    ensures var r := RenameOutcome(lists, watchlistId, newName, updateError);
      && (IsBlank(newName) ==> r == Step(lists, Failed("Watchlist name cannot be empty"), None))
      && (!IsBlank(newName) ==> r.sent == Some(UpdateName(watchlistId, Trim(newName))) && !IsBlank(Trim(newName)))
      && (r.notice.Done? ==>
            && |r.lists| == |lists|
            && forall i :: 0 <= i < |lists| ==>
                 && (lists[i].id == watchlistId ==> r.lists[i].name == Trim(newName))
                 && (lists[i].id != watchlistId ==> r.lists[i] == lists[i]))
  {
    if !IsBlank(newName) {
      TrimmedNotBlank(newName);
      RenamedSpec(lists, watchlistId, Trim(newName));
    }
  }

  /** What the database holds for `loadWatchlists`: the watchlist query's
      result (`null` data reading as no rows), each watchlist's item query,
      and the quote lookup the refresh uses. */
  datatype Backend = Backend(listed: Result<Option<seq<WatchlistRow>>, DbError>,
                             itemsOf: string -> Result<Option<seq<WatchlistItem>>, DbError>,
                             quoteOf: string -> Option<Quote>)

  /** The list and the toast (if any) `loadWatchlists` ends with, when the
      component believes itself signed in or not. */
  datatype Load = Load(lists: seq<Watchlist>, notice: Option<Notice>)

  /** `loadWatchlists` followed by the `refreshPrices` it triggers. */
  function LoadOutcome(authenticated: bool, b: Backend): (r: Load)
    ensures r.notice.Some? ==> r.notice == Some(Failed("Failed to load watchlists"))
  {
    if !authenticated then Load([], None)
    else if b.listed.Failure? then
      Load([], if b.listed.error.isAuthError then None else Some(Failed("Failed to load watchlists")))
    else
      var lists := Loaded(b.listed.value.GetOr([]), b.itemsOf);
      Load(if |lists| > 0 then RefreshedLists(lists, b.quoteOf) else lists, None)
  }

  /** Loading lists no watchlists unless signed in and the watchlist query
      succeeded; then it lists every returned watchlist in order, under its
      id and name, a failed item query leaving it listed with no items. */
  lemma LoadOutcomeSpec(authenticated: bool, b: Backend)
    ensures var r := LoadOutcome(authenticated, b);
      && (!authenticated || b.listed.Failure? ==> r.lists == [])
      && (authenticated && b.listed.Success? ==>
            var rows := b.listed.value.GetOr([]);
            && |r.lists| == |rows|
            && forall i :: 0 <= i < |rows| ==>
                 && r.lists[i].id == rows[i].id && r.lists[i].name == rows[i].name
                 && (b.itemsOf(rows[i].id).Failure? ==> r.lists[i].items == []))
  {
    if authenticated && b.listed.Success? {
      var rows := b.listed.value.GetOr([]);
      LoadedSpec(rows, b.itemsOf);
      RefreshedListsSpec(Loaded(rows, b.itemsOf), b.quoteOf);
    }
  }

  /** The component's `watchlists` state. */
  class WatchlistPanel {
    var watchlists: seq<Watchlist>

    constructor()
      ensures watchlists == []
    {
      watchlists := [];
    }

    /** `loadWatchlists`; `authenticated` is the signed-in flag the calling
      closure sees. */
    method LoadWatchlists(authenticated: bool, b: Backend) returns (notice: Option<Notice>)
      modifies this
      ensures Load(watchlists, notice) == LoadOutcome(authenticated, b)
    {
      var r := LoadOutcome(authenticated, b);
      watchlists := r.lists;
      notice := r.notice;
    }

    /** `refreshPrices(watchlists)`. */
    method RefreshPrices(quoteOf: string -> Option<Quote>)
      modifies this
      ensures watchlists == RefreshedLists(old(watchlists), quoteOf)
    {
      if |watchlists| > 0 {
        watchlists := RefreshedLists(watchlists, quoteOf);
      }
    }

    method CreateWatchlist(name: string, user: Result<Option<string>, DbError>, inserted: Result<Option<string>, DbError>)
      returns (notice: Notice, sent: Option<DbCall>)
      modifies this
      ensures Step(watchlists, notice, sent) == CreateOutcome(old(watchlists), name, user, inserted)
    {
      var r := CreateOutcome(watchlists, name, user, inserted);
      watchlists := r.lists;
      notice, sent := r.notice, r.sent;
    }

    /** `addToWatchlist(watchlistId)`: on a successful insert the list is
      reloaded from `b`, as the source's `await loadWatchlists()` does. */
    method AddToWatchlist(watchlistId: string, newSymbol: string, insertError: Option<DbError>,
                          authenticated: bool, b: Backend)
      returns (notice: Notice, sent: Option<DbCall>)
      modifies this
      ensures Step(watchlists, notice, sent) ==
        AddOutcome(old(watchlists), watchlistId, newSymbol, b.quoteOf, insertError, LoadOutcome(authenticated, b).lists)
    {
      var before := watchlists;
      var reloaded := watchlists;
      if !IsBlank(newSymbol) && b.quoteOf(ToUpper(Trim(newSymbol))).Some? && insertError.None? {
        var _ := LoadWatchlists(authenticated, b);
        reloaded := watchlists;
      }
      var r := AddOutcome(before, watchlistId, newSymbol, b.quoteOf, insertError, reloaded);
      watchlists := r.lists;
      notice, sent := r.notice, r.sent;
    }

    method RemoveFromWatchlist(itemId: string, deleteError: Option<DbError>) returns (notice: Notice)
      modifies this
      ensures Step(watchlists, notice, Some(DeleteItem(itemId))) == RemoveOutcome(old(watchlists), itemId, deleteError)
    {
      var r := RemoveOutcome(watchlists, itemId, deleteError);
      watchlists := r.lists;
      notice := r.notice;
    }

    method DeleteWatchlist(watchlistId: string, deleteError: Option<DbError>) returns (notice: Notice)
      modifies this
      ensures Step(watchlists, notice, Some(DeleteList(watchlistId))) == DeleteOutcome(old(watchlists), watchlistId, deleteError)
    {
      var r := DeleteOutcome(watchlists, watchlistId, deleteError);
      watchlists := r.lists;
      notice := r.notice;
    }

    /** The inline editor's `onChange`: the typed text becomes the
      watchlist's name at once, before anything is saved; leaving the
      editor does not undo it. */
    method EditName(watchlistId: string, text: string)
      modifies this
      ensures watchlists == Renamed(old(watchlists), watchlistId, text)
    {
      watchlists := Renamed(watchlists, watchlistId, text);
    }

    method UpdateWatchlistName(watchlistId: string, newName: string, updateError: Option<DbError>)
      returns (notice: Notice, sent: Option<DbCall>)
      modifies this
      ensures Step(watchlists, notice, sent) == RenameOutcome(old(watchlists), watchlistId, newName, updateError)
    {
      var r := RenameOutcome(watchlists, watchlistId, newName, updateError);
      watchlists := r.lists;
      notice, sent := r.notice, r.sent;
    }
  }
}
